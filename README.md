# Fr8 hub and terminals: a Dafny model of the sequential core

Fr8 (the "Dockyard" repository) is a web hub that runs plans made of
activities. Each activity is served by a terminal: a separate web service for
Salesforce, Slack, DocuSign, Azure SQL, SMS and so on. The hub and the
terminals pass crates to each other. A crate is a labelled piece of typed
content, such as configuration controls, field descriptions, payload objects,
table data or an event report.

This project models the deterministic rules inside that system and proves
what they promise. One module models one C# source file. Where the source
updates an object in place, the model is a class whose methods are specified
by a pure function of the old state.

Hub side:

- `Alarms` covers the polling scheduler: job ids, cron expressions, and the
  retry state machine of `ExecuteSchedulledJob` over the recurring-job table.
- `PluginTransmitter` covers how a terminal request is built: argument
  checks, base address and action-name normalisation.
- `ActionService` covers the actions offered to an account (a stable sort),
  the field-restricted upsert of an action, and the payload built from field
  mappings and envelope data.
- `PluginRegistration` covers registration type names and idempotent
  registration of a plugin's actions.
- `PlanStorage` covers how a plan changeset is applied to the mocked
  database's per-kind tables.
- `FieldDescriptions` covers the field-description manifest and its indexer.
- `ServerUrl` covers the one-time computation of the server URL and the
  canonical-host redirect.

Terminal side:

- `SlackEvents` covers the Slack real-time subscription registry and the
  encoding of a received message.
- `SalesforceEvent` covers the event report built from an outbound message.
- `SendSms` covers phone-number generalisation and the run of the SMS
  activity.
- `WriteToSql` covers the request-type evaluation and the mapping of payload
  fields to single-row tables.
- `GetData`, `CreateLead`, `PublishToSlack` and `MailMerge` cover the
  configuration and run decisions of four activities.

Shared modules:

- `Wrappers` holds Option and Result.
- `Strings` holds the .NET string operations used, with lemmas about Split,
  Join and number printing.
- `Crates` holds fields, controls, crates and the crate-storage operations.

Library behaviour that is not visible in the source becomes a parameter of
the function that needs it. This covers the Unicode character classes,
`PhoneNumberUtil.IsAlphaNumber`, URL encoding, JSON parsing, date printing,
and the terminal and database calls. Every lemma therefore holds whatever
those parameters are.

## Model

| member | source | states |
|---|---|---|
| Alarms.Polling | Controllers/Api/AlarmsController.cs:74-84 | sets JobId to terminal token + "\|" + external account id, registers (or replaces) that job with cron "*/N * * * *" on the data's interval, and fires it once more only when TriggerImmediately is set |
| Alarms.ExecuteSchedulledJob | Controllers/Api/AlarmsController.cs:107-173 | the argument object and the job table after one run are exactly `Tick` of the old ones; nothing is fired immediately |
| Alarms.RecurringJobs.AddOrUpdate | Controllers/Api/AlarmsController.cs:78 | the id names the new job afterwards, whatever it named before; no other id changes |
| Alarms.RecurringJobs.RemoveIfExists | Controllers/Api/AlarmsController.cs:114 | the id is gone from the table, every other job is kept |
| Alarms.RecurringJobs.Trigger | Controllers/Api/AlarmsController.cs:81 | an existing job is fired exactly once; the table is unchanged |
| Alarms.JobIdDeterminesPair | Controllers/Api/AlarmsController.cs:77 | when terminal tokens hold no '\|', equal job ids mean the same (terminal, account) pair |
| Alarms.CronDeterminesInterval | Controllers/Api/AlarmsController.cs:78 | equal cron expressions mean equal intervals |
| Alarms.TickKeepsOtherJobs | Controllers/Api/AlarmsController.cs:107-173 | a run adds, replaces or removes only its own job id |
| Alarms.TickAnsweredFalseGivesUp | Controllers/Api/AlarmsController.cs:123-130 | Result = false with RetryCounter > 3 removes the job |
| Alarms.TickAnsweredFalseRetries | Controllers/Api/AlarmsController.cs:131-136 | Result = false with RetryCounter <= 3 raises the counter by one and reschedules on the response's interval with the response object as the next argument |
| Alarms.TickAnsweredTrue | Controllers/Api/AlarmsController.cs:138-142 | Result = true reschedules on the response's interval with the response as argument and leaves RetryCounter unchanged |
| Alarms.TickSilentAfterSuccess | Controllers/Api/AlarmsController.cs:144-155 | no answer after a successful poll sets Result to false and reschedules on the job's own interval with RetryCounter unchanged |
| Alarms.TickSilentAfterFailure | Controllers/Api/AlarmsController.cs:156-170 | no answer after a failed poll removes the job when RetryCounter > 20, otherwise raises it by one and reschedules |
| Alarms.TickMissingTokenStillReschedules | Controllers/Api/AlarmsController.cs:112-142 | a missing token removes the job, but an answered or first silent poll adds it back in the same run |
| Alarms.TickMissingTokenRetries | Controllers/Api/AlarmsController.cs:112-170 | with no token, a failed or silent poll within its retry limit also adds the job back |
| Alarms.TickStoresToken | Controllers/Api/AlarmsController.cs:90-112 | a token that is found is stored on the argument |
| Alarms.TwoSilentTicksAfterSuccess | Controllers/Api/AlarmsController.cs:144-170 | two unanswered runs after a success first clear Result and then count one retry |
| Alarms.SilentTicksRemoveAfterLimit | Controllers/Api/AlarmsController.cs:156-170 | from RetryCounter c <= 21, 21 - c silent runs keep the job, and one more removes it |
| PluginTransmitter.NormalizeActionName | Core/Managers/APIManagers/Transmitters/Plugin/PluginTransmitter.cs:56 | the normalised name has the length of the original |
| PluginTransmitter.NormalizedNameAllowed | Core/Managers/APIManagers/Transmitters/Plugin/PluginTransmitter.cs:56 | every character of the normalised name is '-', '_', a word character or a digit |
| PluginTransmitter.NormalizedNamePositions | Core/Managers/APIManagers/Transmitters/Plugin/PluginTransmitter.cs:56 | at each position an allowed character is kept and any other becomes '_' |
| PluginTransmitter.NormalizeKeepsAllowedName | Core/Managers/APIManagers/Transmitters/Plugin/PluginTransmitter.cs:56 | a name made only of allowed characters is unchanged |
| PluginTransmitter.NormalizeIdempotent | Core/Managers/APIManagers/Transmitters/Plugin/PluginTransmitter.cs:56 | normalising twice equals normalising once |
| PluginTransmitter.FindPlugin | Core/Managers/APIManagers/Transmitters/Plugin/PluginTransmitter.cs:45 | a found plugin is in the list with that id; none is found exactly when no plugin has that id |
| PluginTransmitter.BaseUriFor | Core/Managers/APIManagers/Transmitters/Plugin/PluginTransmitter.cs:45-54 | no base address exactly when the plugin is missing or its endpoint is null or empty; an endpoint starting with "http" is used verbatim, any other gets "http://" in front |
| PluginTransmitter.Transmitter.CallActionAsync | Core/Managers/APIManagers/Transmitters/Plugin/PluginTransmitter.cs:22-60 | returns `Transmit` (a null DTO fails with ArgumentNull first); on success BaseUri is the request's base address, on failure BaseUri is untouched |
| PluginTransmitter.TransmitNeedsTemplate | Core/Managers/APIManagers/Transmitters/Plugin/PluginTransmitter.cs:29-32 | ArgumentOutOfRange exactly when the template id is null or 0 and there is no explicit template |
| PluginTransmitter.TransmitTemplateWins | Core/Managers/APIManagers/Transmitters/Plugin/PluginTransmitter.cs:36-43 | with an explicit template the call succeeds and its plugin id decides the base address, whatever the template id says |
| PluginTransmitter.TransmitRequestUri | Core/Managers/APIManagers/Transmitters/Plugin/PluginTransmitter.cs:56-59 | the relative request is "actions/" + a name of the original's length made of allowed characters, and the body posted is the DTO given |
| ActionService.Insert | Core/Services/Action.cs:45 | inserting one action adds exactly that action to the multiset of actions |
| ActionService.InsertSorted | Core/Services/Action.cs:45 | inserting into a list sorted by ActionType keeps it sorted |
| ActionService.InsertOfType | Core/Services/Action.cs:45 | inserting into a sorted list puts the new action before the others of its type and keeps their order |
| ActionService.SortSorted | Core/Services/Action.cs:45 | OrderBy(ActionType) yields a list sorted by ordinal comparison of ActionType |
| ActionService.SortPermutes | Core/Services/Action.cs:45 | the sorted list holds the same actions, each as often |
| ActionService.SortStable | Core/Services/Action.cs:45 | actions of equal ActionType keep their relative order |
| ActionService.GetAvailableActionsSpec | Core/Services/Action.cs:42-46 | the result is every authorised plugin's actions (SelectMany), sorted by ActionType, as a permutation, stably |
| ActionService.CopyTracked | Core/Services/Action.cs:55-61 | the stored action gets exactly the seven listed columns from the new one and keeps its id and payload mappings |
| ActionService.UpsertStores | Core/Services/Action.cs:52-66 | after the save, the id is present and agrees with the new action on the seven columns; an existing row keeps its other columns, a new id stores the action as given, and every other row is unchanged |
| ActionService.UpsertIdempotent | Core/Services/Action.cs:48-70 | saving the same action twice equals saving it once |
| ActionService.ActionRepository.SaveOrUpdateAction | Core/Services/Action.cs:48-70 | returns true and the table becomes `Upsert` of the old table |
| ActionService.Names | Core/Services/Action.cs:154-155 | the payload's property names, one per payload entry, in order |
| ActionService.PayloadObject | Core/Services/Action.cs:139-155 | the payload object has one string property per payload entry, in order |
| ActionService.Reports | Core/Services/Action.cs:150 | one DocuSignFieldMissing report per missing name, in order, each naming the envelope |
| ActionService.MapAllShape | Core/Services/Action.cs:141-157 | a successful loop puts exactly the names that have a non-null envelope datum into the payload, in mapping order, each with that datum's value, and reports exactly the others |
| ActionService.MatchedFromNames | Core/Services/Action.cs:141-157 | every name in the payload is the name of some mapping |
| ActionService.MapAllSucceeds | Core/Services/Action.cs:147 | with distinct mapping names the loop succeeds exactly when no mapping name has more than one envelope datum (SingleOrDefault) |
| ActionService.MapAllIgnoresMappedValues | Core/Services/Action.cs:143-144 | the mappings' own values never change the outcome: only their names do |
| ActionService.MapAllErrSticks | Core/Services/Action.cs:141-157 | once an iteration has thrown, later mappings change nothing |
| ActionService.RaisedAfterThrow | Core/Services/Action.cs:141-156 | once the loop has thrown at a mapping, the DocuSignFieldMissing reports are exactly those made before it, whatever mappings follow |
| ActionService.RaisedSpec | Core/Services/Action.cs:141-156 | the reports are exactly the unmatched mapping names on success, and the unmatched names among the mappings before the throwing one otherwise |
| ActionService.ParsePayloadMappings | Core/Services/Action.cs:134-161 | settings that are not a JSON object fail with the JSON reader's exception, a missing or non-object "field_mappings" with a null reference; otherwise the rendered {"payload": {...}} object or the loop's exception, together with every DocuSignFieldMissing report raised before the end or the throw |
| ActionService.CreateActionPayload | Core/Services/Action.cs:124-132 | null or empty FieldMappingSettings fails with "Field mappings are empty on ActionDO with id " + id; no report is raised then; otherwise result and reports are those of ParsePayloadMappings on the parsed settings |
| ActionService.Dispatch | Core/Services/Action.cs:112-122 | a null action fails with ArgumentNullException("curAction") and leaves the client alone; otherwise the client's base address is set, and the action's payload mappings become the rendered payload, the reports and failures being those of CreateActionPayload; on success the action differs from the input only in its payload mappings |
| PluginRegistration.AssembleNameVersion | Core/PluginRegistrations/BasePluginRegistration.cs:87-90 | for a version without '_', the assembled name "Core.PluginRegistrations." + parent + "PluginRegistration_v" + version ends in "v" + version after its last '_' |
| PluginRegistration.AssembleNameInjective | Core/PluginRegistrations/BasePluginRegistration.cs:87-90 | for such versions, equal assembled names mean equal parent and version |
| PluginRegistration.RegisterAllAppends | Core/PluginRegistrations/BasePluginRegistration.cs:58-73 | registration only appends, at most one row per action, and every appended row carries the registering class's name as parent |
| PluginRegistration.RegisterAllCovers | Core/PluginRegistrations/BasePluginRegistration.cs:63-72 | afterwards every action is registered under that parent, and everything registered before still is |
| PluginRegistration.RegisterAllKnown | Core/PluginRegistrations/BasePluginRegistration.cs:64-66 | when every action already has a row with the same type, version and parent, nothing is added |
| PluginRegistration.RegisterAllIdempotent | Core/PluginRegistrations/BasePluginRegistration.cs:56-75 | registering a second time adds nothing |
| PluginRegistration.RegisterAllNoDuplicates | Core/PluginRegistrations/BasePluginRegistration.cs:59-72 | a repository without duplicates stays without duplicates, even when the action list repeats an action, because each add is saved before the next check |
| PluginRegistration.RegistrationRepository.Add | Core/PluginRegistrations/BasePluginRegistration.cs:70-71 | the row is stored at once, after the existing ones |
| PluginRegistration.BasePluginRegistration.constructor | Core/PluginRegistrations/BasePluginRegistration.cs:20-27 | keeps the action list and the base address given |
| PluginRegistration.BasePluginRegistration.SetBaseUrl | Core/PluginRegistrations/BasePluginRegistration.cs:33 | the setter leaves BaseUrl as it was |
| PluginRegistration.BasePluginRegistration.RegisterActions | Core/PluginRegistrations/BasePluginRegistration.cs:56-75 | the repository becomes `RegisterAll` of its old rows, the action list and the class name |
| PlanStorage.Detached | Data/Repositories/Plan/PlanStorageProviderMockedDb.cs:37-39 | the stored copy has the node's id, type and properties and no navigation properties |
| PlanStorage.WithKindTable | Data/Repositories/Plan/PlanStorageProviderMockedDb.cs:19-56 | replaces the table of one node kind and leaves the other tables as they were |
| PlanStorage.DeleteOneTables | Data/Repositories/Plan/PlanStorageProviderMockedDb.cs:17-30 | a delete removes the id from PlanNodes and from the table for its kind (Activity, Plan or SubPlan), and from no other table |
| PlanStorage.DeleteAllRemoves | Data/Repositories/Plan/PlanStorageProviderMockedDb.cs:15-31 | after the delete loop no deleted node is in PlanNodes or in its kind's table |
| PlanStorage.DeleteAllKeepsOthers | Data/Repositories/Plan/PlanStorageProviderMockedDb.cs:15-31 | ids that are not deleted keep their rows, unchanged, in every table |
| PlanStorage.InsertOnePlaces | Data/Repositories/Plan/PlanStorageProviderMockedDb.cs:37-56 | an insert puts the detached clone in exactly the table chosen by kind; PlanNodes changes only for other kinds |
| PlanStorage.InsertAllPlaces | Data/Repositories/Plan/PlanStorageProviderMockedDb.cs:33-57 | with distinct ids, every inserted node ends up, detached, in its kind's table |
| PlanStorage.CopyPropertiesSpec | Data/Repositories/Plan/PlanStorageProviderMockedDb.cs:77-80 | each listed property takes the node's value; every other property, the id, the type and the navigation are unchanged |
| PlanStorage.UpdateOneChangesOnlyListed | Data/Repositories/Plan/PlanStorageProviderMockedDb.cs:59-80 | a successful update with changed properties is of a stored Activity, Plan or SubPlan, changes only the listed properties of that one row, and no other row or table |
| PlanStorage.UpdateOneWithoutEntityFails | Data/Repositories/Plan/PlanStorageProviderMockedDb.cs:62-80 | a node of another kind, or an id with no stored entity, fails at its first changed property (SetValue on null) |
| PlanStorage.UpdateOneNothingListed | Data/Repositories/Plan/PlanStorageProviderMockedDb.cs:77-80 | an update with no changed properties changes nothing and does not fail, whatever the node |
| PlanStorage.DeleteThenInsert | Data/Repositories/Plan/PlanStorageProviderMockedDb.cs:15-57 | deletes run before inserts, so a node both deleted and inserted is present afterwards |
| PlanStorage.UpdateAllFailureSticks | Data/Repositories/Plan/PlanStorageProviderMockedDb.cs:59-81 | after a failed update the remaining updates do not run |
| PlanStorage.PlanStorageProviderMockedDb.Update | Data/Repositories/Plan/PlanStorageProviderMockedDb.cs:13-82 | the tables and the failure are `Apply` of the old tables: all deletes, then all inserts, then all updates |
| PlanStorage.PlanStorageProviderMockedDb.UpdateNode | Data/Repositories/Plan/PlanStorageProviderMockedDb.cs:61-80 | one iteration of the update loop: the tables become `UpdateOne` of the old ones, or the failure is returned |
| FieldDescriptions.ValueOf | Data/Interfaces/Manifests/FieldDescriptionsCM.cs:29 | a null list reads as null; otherwise the value of the first field with the key, or null when no field has it |
| FieldDescriptions.SetFirstValue | Data/Interfaces/Manifests/FieldDescriptionsCM.cs:32-36 | the list keeps its length; only the first field's value changes, and an empty list stays empty |
| FieldDescriptions.SetFirstValueKeepsKeys | Data/Interfaces/Manifests/FieldDescriptionsCM.cs:32-36 | the indexer set changes no key, and no field after the first |
| FieldDescriptions.GetAfterSet | Data/Interfaces/Manifests/FieldDescriptionsCM.cs:27-37 | after a set, a read under a key gives the new value exactly when the first field has that key, and the old value otherwise |
| FieldDescriptions.SetMissesLaterKey | Data/Interfaces/Manifests/FieldDescriptionsCM.cs:30-37 | a set under the key of a later field leaves that field's value as it was |
| FieldDescriptions.FieldDescriptionsCM.constructor | Data/Interfaces/Manifests/FieldDescriptionsCM.cs:9-13 | a new manifest has an empty field list |
| FieldDescriptions.FieldDescriptionsCM.FromFields | Data/Interfaces/Manifests/FieldDescriptionsCM.cs:15-23 | the list holds the given fields in order |
| FieldDescriptions.FieldDescriptionsCM.Get | Data/Interfaces/Manifests/FieldDescriptionsCM.cs:29 | null without a list or without a field with the key; a value found belongs to a field with the key (the first one, by ValueOf) |
| FieldDescriptions.FieldDescriptionsCM.Set | Data/Interfaces/Manifests/FieldDescriptionsCM.cs:30-37 | throws exactly on a null list, leaving it; otherwise the list becomes `SetFirstValue` of the old one |
| ServerUrl.InitialiseOnce | Global.asax.cs:190-234 | once the server URL is set, later calls change nothing, whatever the configuration or request |
| ServerUrl.InitialiseWaitsForRequest | Global.asax.cs:204-214 | with incomplete configuration and no request the state stays as it was, the flag included, so a later request tries again |
| ServerUrl.ConfiguredPort | Global.asax.cs:199-209 | a complete configuration sets the host name to the domain, and the URL is protocol + domain + "/" for port 80 and protocol + domain + ":" + port + "/" for every other port, 443 included |
| ServerUrl.RequestDecides | Global.asax.cs:216-232 | otherwise the first request decides: http exactly when SERVER_PORT_SECURE is missing or "0", https otherwise; the host is SERVER_NAME; the URL is protocol + SERVER_NAME + application path for a missing, "80" or "443" SERVER_PORT, and protocol + SERVER_NAME + ":" + port + application path for any other |
| ServerUrl.MvcApplication.constructor | Global.asax.cs:36 | the application starts uninitialised, with no server URL or host name |
| ServerUrl.MvcApplication.SetServerUrl | Global.asax.cs:188-238 | the static state becomes `Initialise` of the old one |
| ServerUrl.NormalizedExempt | Global.asax.cs:155-158 | API and authentication-callback paths and dev hosts (compared lower-cased) get the response untouched |
| ServerUrl.NormalizedAppends | Global.asax.cs:152-179 | normalisation only appends at most two headers, and leaves the status or sets it to 301 |
| ServerUrl.NormalizedOldHost | Global.asax.cs:161-186 | an old host (containing fr8.company, or starting with www.) is redirected to https://fr8.co with the same path and query |
| ServerUrl.NormalizedProductionHttps | Global.asax.cs:161-173 | a host starting "fr8.co" that is neither a fr8.company nor a www. host gets exactly the HSTS header over https, with no redirect |
| ServerUrl.NormalizedProductionHttp | Global.asax.cs:161-178 | such a host over http gets exactly one redirect to https://fr8.co with its path and query, and no HSTS header |
| ServerUrl.ProductionHostIsCurrent | Global.asax.cs:161-167 | the host "fr8.co" itself is such a host |
| ServerUrl.NormalizedOldHostHttpTwice | Global.asax.cs:161-176 | an fr8.company host over http also starts with "fr8.co", so it is redirected twice and carries two Location headers |
| ServerUrl.HttpResponse.AddHeader | Global.asax.cs:185 | the header is appended and the status kept |
| ServerUrl.RedirectToCanonicalUrl | Global.asax.cs:181-186 | the response becomes `Redirected` of the old one: status 301 and a Location header with https://fr8.co and the path and query |
| ServerUrl.NormalizeUrl | Global.asax.cs:152-179 | the response becomes `Normalized` of the old one |
| Crates.RemoveByLabel | terminalSalesforce/Activities/Get_Data_v1.cs:99-100 | exactly the crates with other labels remain |
| Crates.ReplaceByLabel | terminalSalesforce/Activities/Get_Data_v1.cs:116-123 | the new crate comes last and is the only crate left with its label |
| Crates.ControlsCrates | terminalAzure/Actions/Write_To_Sql_Server_v1.cs:48 | at most one control list per crate |
| Crates.ControlsCratesMembers | terminalAzure/Actions/Write_To_Sql_Server_v1.cs:48 | a control list is collected exactly when some configuration-controls crate of the storage holds it |
| Crates.ControlsCratesAppend | terminalAzure/Actions/Write_To_Sql_Server_v1.cs:48 | collection keeps the storage order: collecting a concatenation concatenates the collections |
| Crates.FindControl | terminalAzure/Actions/Write_To_Sql_Server_v1.cs:48 | a found control is in the list and has the name; none is found exactly when no control has it |
| Crates.FirstWithKey | terminalSlack/Actions/Publish_To_Slack_v1.cs:57 | a found field is in the list and has the key; none is found exactly when no field has it |
| Crates.FirstWithKeyIsFirst | terminalSlack/Actions/Publish_To_Slack_v1.cs:57 | the field found is the first with its key: no earlier field has it |
| SlackEvents.ClientUnsubscribe | terminalSlack/Services/SlackEventManager.cs:108 | the client keeps its team and loses the activity, and reports true exactly when no subscription is left |
| SlackEvents.EmptyValid | terminalSlack/Services/SlackEventManager.cs:22-24 | the empty registry satisfies the invariant: each client sits under its own team and serves some activity, and the activity-to-team map agrees with the clients both ways |
| SlackEvents.DisposedIsInert | terminalSlack/Services/SlackEventManager.cs:48-130 | once disposed, Subscribe, Unsubscribe and a second Dispose change nothing |
| SlackEvents.UnsubscribeDropsMapping | terminalSlack/Services/SlackEventManager.cs:99-103 | Unsubscribe drops the activity's team mapping and no other |
| SlackEvents.UnsubscribeRemovesLastClient | terminalSlack/Services/SlackEventManager.cs:104-115 | the activity's team loses its client exactly when that was its last subscription, otherwise the client loses only this activity; other teams keep their clients |
| SlackEvents.UnsubscribeValid | terminalSlack/Services/SlackEventManager.cs:89-118 | Unsubscribe keeps the invariant |
| SlackEvents.SubscribeMaps | terminalSlack/Services/SlackEventManager.cs:54-69 | after Subscribe the activity is mapped to the token's team, and that team's client serves it |
| SlackEvents.SubscribeReusesClient | terminalSlack/Services/SlackEventManager.cs:55-68 | a client is created only when the team has none; an existing one is reused with its other subscriptions, and other teams' clients do not change |
| SlackEvents.SubscribeValid | terminalSlack/Services/SlackEventManager.cs:42-72 | Subscribe with a non-empty team id keeps the invariant |
| SlackEvents.OneClientPerActivity | terminalSlack/Services/SlackEventManager.cs:54-69 | under the invariant an activity is served by one client at most |
| SlackEvents.SubscriptionFailedForgets | terminalSlack/Services/SlackEventManager.cs:80-84 | the failure handler drops the client's team and every activity it held, and keeps every other mapping |
| SlackEvents.SubscriptionFailedValid | terminalSlack/Services/SlackEventManager.cs:74-87 | for a registered client, the failure handler keeps the invariant |
| SlackEvents.DisposeValid | terminalSlack/Services/SlackEventManager.cs:120-137 | Dispose keeps the invariant and the clients |
| SlackEvents.EmptyTeamKeepsSubscription | terminalSlack/Services/SlackEventManager.cs:105 | a subscription under the empty team id is not undone by Unsubscribe: the mapping goes but the client still serves the activity |
| SlackEvents.MessagePairs | terminalSlack/Services/SlackEventManager.cs:144-154 | a message gives eight key/value pairs |
| SlackEvents.Kept | terminalSlack/Services/SlackEventManager.cs:155 | filtering never lengthens the pairs |
| SlackEvents.KeptMembers | terminalSlack/Services/SlackEventManager.cs:155 | a pair is kept exactly when it is present with a value that is not null or blank |
| SlackEvents.KeptAppend | terminalSlack/Services/SlackEventManager.cs:155 | filtering keeps the pairs' order |
| SlackEvents.Rendered | terminalSlack/Services/SlackEventManager.cs:155 | each kept pair renders as key, "=", and the URL-encoded value |
| SlackEvents.TimestampNotBlank | terminalSlack/Services/SlackEventManager.cs:150-155 | when white space excludes digits and '-', the timestamp pair is never blank and is always kept |
| SlackEvents.EncodeTimestampAndText | terminalSlack/Services/SlackEventManager.cs:144-155 | a message whose other values are all blank encodes to "timestamp=" + the encoded timestamp, "&text=" and the encoded text, in that order |
| SlackEvents.SlackEventManager.constructor | terminalSlack/Services/SlackEventManager.cs:32-40 | a new manager has no clients and no mappings, is not disposed, satisfies the invariant, and posts to the terminal endpoint's /terminals/terminalslack/events |
| SlackEvents.SlackEventManager.Unsubscribe | terminalSlack/Services/SlackEventManager.cs:89-118 | the registry becomes `AfterUnsubscribe` of the old one |
| SlackEvents.SlackEventManager.Subscribe | terminalSlack/Services/SlackEventManager.cs:42-72 | the registry becomes `AfterSubscribe` of the old one |
| SlackEvents.SlackEventManager.OnSubscriptionFailed | terminalSlack/Services/SlackEventManager.cs:74-87 | the registry becomes `AfterSubscriptionFailed` of the old one |
| SlackEvents.SlackEventManager.Dispose | terminalSlack/Services/SlackEventManager.cs:120-137 | the registry becomes `AfterDispose` of the old one |
| SlackEvents.SlackEventManager.OnMessageReceived | terminalSlack/Services/SlackEventManager.cs:139-158 | the post goes to the events address, and its content joins the rendered kept pairs with "&" |
| SlackEvents.NewSlackEventManager | terminalSlack/Services/SlackEventManager.cs:32-40 | a manager exists exactly when a REST client is given; a null one is rejected |
| SalesforceEvent.OccuredEventSpec | terminalSalesforce/Services/Event.cs:99-113 | an event name is the object type after its last ':' followed by "Created" (equal dates) or "Updated" (modified later); it fails exactly when the object was modified before it was created |
| SalesforceEvent.EventNameList | terminalSalesforce/Services/Event.cs:59-64 | one name per notification, in order, and no list at all when any notification fails |
| SalesforceEvent.EventNameFree | terminalSalesforce/Services/Event.cs:103-107 | an event name holds no ',' when its object type holds none |
| SalesforceEvent.EventNamesSplit | terminalSalesforce/Services/Event.cs:57-67 | when no object type holds a ',', splitting the joined names on ',' gives back one name per notification |
| SalesforceEvent.NotificationFields | terminalSalesforce/Services/Event.cs:85-97 | exactly five fields: ObjectType (namespace-free), Id, CreatedDate, LastModifiedDate and OccuredEvent, in that order |
| SalesforceEvent.PayloadObjectsLength | terminalSalesforce/Services/Event.cs:74-77 | one payload object per notification |
| SalesforceEvent.PayloadObjectsSpec | terminalSalesforce/Services/Event.cs:74-77 | the i-th payload object is the i-th notification's five fields |
| SalesforceEvent.ExtractEventPayload | terminalSalesforce/Services/Event.cs:69-83 | the storage holds just the payload crate, labelled "Salesforce Event Notification Payload", with those objects |
| SalesforceEvent.ProcessedSpec | terminalSalesforce/Services/Event.cs:25-55 | processing succeeds exactly when the payload parses, has a notification list and every notification has a reason; failures carry "Error while processing." and the payload; a report carries the fixed label, manufacturer "Salesforce", an empty container id, the first owner as account, the event names of the notifications joined by ',' in notification order, and one payload object per notification, the i-th holding the i-th notification's five fields |
| SalesforceEvent.ProcessEvent | terminalSalesforce/Services/Event.cs:25-55 | the result is `Processed` of the payload |
| SendSms.Filtered | terminalFr8Core/Activities/Send_SMS_v1.cs:146 | filtering never lengthens the number, and every character left satisfies the filter |
| SendSms.FilteredMembers | terminalFr8Core/Activities/Send_SMS_v1.cs:146 | a character survives exactly when it is in the number and satisfies the filter |
| SendSms.FilteredAppend | terminalFr8Core/Activities/Send_SMS_v1.cs:146 | filtering keeps the characters' original order |
| SendSms.FilteredAll | terminalFr8Core/Activities/Send_SMS_v1.cs:146 | a number made only of kept characters is left as it is |
| SendSms.GeneraliseSpec | terminalFr8Core/Activities/Send_SMS_v1.cs:143-150 | the number keeps exactly its digits, '+' and (for an alphanumeric number) letters, and is prefixed by "+1" exactly when that leaves ten characters and no '+' |
| SendSms.GeneraliseIdempotent | terminalFr8Core/Activities/Send_SMS_v1.cs:143-150 | for a number that is not alphanumeric, generalising twice gives the same number as generalising once |
| SendSms.MessageFields | terminalFr8Core/Activities/Send_SMS_v1.cs:152-160 | the message data is exactly Status, ErrorMessage, Body and ToNumber, in that order, with the service's values |
| SendSms.RanSpec | terminalFr8Core/Activities/Send_SMS_v1.cs:107-141 | a failure while reading a value raises its own message and a null number escapes; the trimmed, generalised number receives the body plus the Fr8 signature; a send failure raises "Twilio Service Failure due to " and its message; only a successful send appends the "Message Data" crate, and that is the payload's only change |
| SendSms.SendSmsActivity.RunETA | terminalFr8Core/Activities/Send_SMS_v1.cs:107-133 | the payload and the error raised are `Ran` of the old payload |
| WriteToSql.ConnectionStrings | terminalAzure/Actions/Write_To_Sql_Server_v1.cs:48 | at most one connection-string control per controls crate |
| WriteToSql.ConnectionStringsMembers | terminalAzure/Actions/Write_To_Sql_Server_v1.cs:48 | a control is counted exactly when it is some controls crate's connection_string control and its value is not blank |
| WriteToSql.EvaluateReceivedRequest | terminalAzure/Actions/Write_To_Sql_Server_v1.cs:38-63 | empty storage gives Initial; otherwise more than one connection string throws the ArgumentException, none gives Initial and exactly one gives Followup |
| WriteToSql.GetFieldMappings | terminalAzure/Actions/Write_To_Sql_Server_v1.cs:143-189 | the database is asked only when the storage is not empty, a controls crate exists and its first control has a value, and it is asked with that value; an empty control list fails in First, and every other failure is SQL_SERVER_CONNECTION_STRING_MISSING |
| WriteToSql.FollowupStorage | terminalAzure/Actions/Write_To_Sql_Server_v1.cs:90-103 | the "Sql Table Columns" crate is replaced by one that lists each column as key and value, in order, and the other crates are kept |
| WriteToSql.PrepareSqlNameSpec | terminalAzure/Actions/Write_To_Sql_Server_v1.cs:294-297 | exactly '[' and ']' are removed, and a second application changes nothing |
| WriteToSql.ColumnOfSpec | terminalAzure/Actions/Write_To_Sql_Server_v1.cs:243-250 | a mapped field is accepted exactly when its value holds one '.'; otherwise "Invalid column name" and the value is raised |
| WriteToSql.Keys | terminalAzure/Actions/Write_To_Sql_Server_v1.cs:259-266 | a dictionary's keys, in insertion order |
| WriteToSql.Lookup | terminalAzure/Actions/Write_To_Sql_Server_v1.cs:260 | a lookup finds a value exactly when the key is present |
| WriteToSql.Put | terminalAzure/Actions/Write_To_Sql_Server_v1.cs:262-266 | an indexer set keeps a present key in its place and adds a new key last |
| WriteToSql.PutLookup | terminalAzure/Actions/Write_To_Sql_Server_v1.cs:266 | after a set, the key reads as the new value and every other key reads as before |
| WriteToSql.PutDistinct | terminalAzure/Actions/Write_To_Sql_Server_v1.cs:259-266 | a set keeps the keys distinct |
| WriteToSql.CellValue | terminalAzure/Actions/Write_To_Sql_Server_v1.cs:251-257 | the value written is that of the first envelope value with the field's key, or "" without one (the evidently intended guard) |
| WriteToSql.BuildAppend | terminalAzure/Actions/Write_To_Sql_Server_v1.cs:241-267 | the field loop over a concatenation runs over each part in turn, stopping at the first failure |
| WriteToSql.StepWellFormed | terminalAzure/Actions/Write_To_Sql_Server_v1.cs:249-266 | one iteration keeps every table, and every column within its table, listed once |
| WriteToSql.LookupAt | terminalAzure/Actions/Write_To_Sql_Server_v1.cs:260 | a found value is the value of an entry with that key |
| WriteToSql.PutAt | terminalAzure/Actions/Write_To_Sql_Server_v1.cs:266 | each entry after a set is the new entry or an old one |
| WriteToSql.BuildWellFormed | terminalAzure/Actions/Write_To_Sql_Server_v1.cs:241-267 | the whole loop keeps the tables and their columns distinct |
| WriteToSql.LastFieldWins | terminalAzure/Actions/Write_To_Sql_Server_v1.cs:259-266 | after the loop, the cell a field names holds that field's value, so a later field for the same table and column overwrites an earlier one |
| WriteToSql.RowOf | terminalAzure/Actions/Write_To_Sql_Server_v1.cs:280-285 | a table's row lists its columns and values, in column order |
| WriteToSql.TablesOf | terminalAzure/Actions/Write_To_Sql_Server_v1.cs:276-291 | one table per table name, in order, each with schema "dbo" and a single row |
| WriteToSql.TablesOfDistinct | terminalAzure/Actions/Write_To_Sql_Server_v1.cs:236-291 | the tables have distinct names |
| WriteToSql.CreateTablesFromMap | terminalAzure/Actions/Write_To_Sql_Server_v1.cs:273-292 | the tables are `TablesOf` the table map |
| WriteToSql.CreateTables | terminalAzure/Actions/Write_To_Sql_Server_v1.cs:236-271 | the first failing field's error, or the tables of the map the field loop builds (with the corrected value guard) |
| WriteToSql.CellValueAsWritten | terminalAzure/Actions/Write_To_Sql_Server_v1.cs:251-257 | as written, the lookup fails with a null reference exactly when no envelope value has the key; otherwise it yields the value of a field with the key |
| WriteToSql.StepAsWritten | terminalAzure/Actions/Write_To_Sql_Server_v1.cs:243-258 | as written, one step fails exactly on a bad column name or on a key without an envelope value, the latter with a null reference |
| WriteToSql.MissingValueFailsAsWritten | terminalAzure/Actions/Write_To_Sql_Server_v1.cs:251-257 | the field Name mapped to "t.c", with no envelope value, fails with a null reference as written, and writes "" to t.c with the corrected guard |
| WriteToSql.StepAgreesWithAsWritten | terminalAzure/Actions/Write_To_Sql_Server_v1.cs:251-257 | where the field's key has an envelope value, the code as written and the corrected loop agree |
| WriteToSql.StepFailsOnlyOnBadColumn | terminalAzure/Actions/Write_To_Sql_Server_v1.cs:243-266 | with the corrected guard, a field fails only when its column name is invalid |
| WriteToSql.PayloadCrate | terminalAzure/Actions/Write_To_Sql_Server_v1.cs:204-217 | the first standard-payload crate with the label, and none exactly when no such crate exists |
| WriteToSql.AllValuesMembers | terminalAzure/Actions/Write_To_Sql_Server_v1.cs:233 | a field is among all values exactly when some payload object holds it |
| WriteToSql.ConvertProcessPayloadToSqlInputs | terminalAzure/Actions/Write_To_Sql_Server_v1.cs:202-234 | a missing "MappedFields" crate, then a missing "DocuSign Envelope Data" crate, raise their messages; otherwise the tables built from all mapped fields and all values, with the corrected value guard (a field without an envelope value writes "" where the code as written throws) |
| GetData.ObjectFields | terminalSalesforce/Activities/Get_Data_v1.cs:119-122 | one object field per property, in order, each (key, key) sourced from "Table from Salesforce Get Data" |
| GetData.ConfigureEmptySelection | terminalSalesforce/Activities/Get_Data_v1.cs:96-103 | an empty selection drops exactly the "Queryable Criteria" and "Salesforce Object Fields" crates and stores the empty selection, whatever was stored before |
| GetData.ConfigureSameSelection | terminalSalesforce/Activities/Get_Data_v1.cs:104-108 | selecting the stored object again changes nothing |
| GetData.ConfigureNewSelection | terminalSalesforce/Activities/Get_Data_v1.cs:109-125 | a new selection leaves one criteria crate and one object-fields crate, both for the object's properties, keeps every other crate and stores the selection |
| GetData.FieldKeys | terminalSalesforce/Activities/Get_Data_v1.cs:139-143 | the query asks for the criteria fields' keys, in order |
| GetData.QueryFilterFields | terminalSalesforce/Activities/Get_Data_v1.cs:139-142 | the criteria are missing exactly when no field-descriptions crate is labelled "Queryable Criteria" |
| GetData.RanSpec | terminalSalesforce/Activities/Get_Data_v1.cs:130-180 | no selection fails with DESIGN_TIME_DATA_MISSING before any query; a run succeeds exactly when an object is selected, the criteria crate exists and the filter parses; it queries the criteria keys with the condition text ("" without filters) and appends the payload crate and then the table crate, and nothing else |
| GetData.GetDataActivity.ConfigureETA | terminalSalesforce/Activities/Get_Data_v1.cs:93-128 | the storage and selection become `Configured` of the old ones; the payload is untouched |
| GetData.GetDataActivity.RunETA | terminalSalesforce/Activities/Get_Data_v1.cs:130-180 | the payload becomes the new payload of `Ran`, or stays as it was when `Ran` fails, and the failure is returned; storage and selection are untouched |
| CreateLead.ConfigurationEvaluator | terminalSalesforce/Actions/Create_Lead_v1.cs:32-50 | Followup exactly when the storage is not empty and holds a controls crate labelled "Configuration_Controls"; empty storage is Initial |
| CreateLead.TextSourcesMembers | terminalSalesforce/Actions/Create_Lead_v1.cs:130-135 | a property gets a text source exactly when it is a lead property other than "Id" |
| CreateLead.TextSourcesAppend | terminalSalesforce/Actions/Create_Lead_v1.cs:132 | the text sources follow the properties' declaration order |
| CreateLead.InitialStorageEndsWithFields | terminalSalesforce/Actions/Create_Lead_v1.cs:54-61 | after the text sources, the available-fields crate comes last |
| CreateLead.RunSpec | terminalSalesforce/Actions/Create_Lead_v1.cs:66-128 | the checks run in this order: authentication, then the last name, then the company; a lead is created only with both, and the creation result decides between Success and "Lead creation is failed" |
| CreateLead.LeadFields | terminalSalesforce/Actions/Create_Lead_v1.cs:75-118 | the lead holds exactly the fifteen lead fields, each with its extracted value, and no Id |
| CreateLead.CreateLeadActivity.InitialConfigurationResponse | terminalSalesforce/Actions/Create_Lead_v1.cs:52-64 | the old storage is cleared, then each text source is added in turn, then the available-fields crate |
| PublishToSlack.ConfigurationEvaluator | terminalSlack/Actions/Publish_To_Slack_v1.cs:96-106 | Initial exactly when the storage holds no crate |
| PublishToSlack.InitialThenFollowup | terminalSlack/Actions/Publish_To_Slack_v1.cs:108-121 | the initial response appends three crates and keeps the old ones in front, so the next configuration is a follow-up |
| PublishToSlack.PayloadFieldsMembers | terminalSlack/Actions/Publish_To_Slack_v1.cs:69-84 | a field is collected exactly when some standard-payload crate holds it |
| PublishToSlack.PayloadFieldsAppend | terminalSlack/Actions/Publish_To_Slack_v1.cs:71-83 | the fields follow the payload crates' storage order |
| PublishToSlack.ExtractPayloadFields | terminalSlack/Actions/Publish_To_Slack_v1.cs:69-84 | the result is the concatenated fields of the standard-payload crates, in storage order |
| PublishToSlack.RanSpec | terminalSlack/Actions/Publish_To_Slack_v1.cs:29-67 | the checks run in order (token, channel, field name, field); the post goes to the selected channel with the value of the first payload field with the selected name, and the run fails with "No specified field found in action." exactly when no payload crate holds such a field |
| PublishToSlack.Run | terminalSlack/Actions/Publish_To_Slack_v1.cs:29-67 | the result is `Ran` of the inputs |
| PublishToSlack.PublishToSlackActivity.InitialConfigurationResponse | terminalSlack/Actions/Publish_To_Slack_v1.cs:108-185 | the controls crate (two drop-down lists), the "Available Channels" crate and the "Available Fields" crate are appended, in that order |
| MailMerge.GetButton | terminalDocuSign/Activities/Mail_Merge_Into_DocuSign_v1.cs:151 | a control found as the button is a button with that name |
| MailMerge.GetDropDown | terminalDocuSign/Activities/Mail_Merge_Into_DocuSign_v1.cs:111-163 | a control found as the list is a drop-down list with that name |
| MailMerge.AnyTableTag | terminalDocuSign/Activities/Mail_Merge_Into_DocuSign_v1.cs:174 | true exactly when some tag, lower-cased, contains "table" |
| MailMerge.GeneratesTableData | terminalDocuSign/Activities/Mail_Merge_Into_DocuSign_v1.cs:172-175 | true exactly when the template has tags and some comma-separated tag, lower-cased, contains "table" |
| MailMerge.RequestTypeSpec | terminalDocuSign/Activities/Mail_Merge_Into_DocuSign_v1.cs:141-165 | Followup exactly when the storage is not null or empty, the "Continue" button exists, it was clicked or children exist, and the "DataSource" list exists (a missing list is dereferenced); only a follow-up records fields, the data source value only when it is not null |
| MailMerge.ValidateSpec | terminalDocuSign/Activities/Mail_Merge_Into_DocuSign_v1.cs:109-136 | validation fails exactly when the template list or the data source list is missing; otherwise the source list gets "No data source exists" exactly when it has no items and "Data source is not selected" exactly when it has items but none is selected |
| MailMerge.HasFirstChildActivity | terminalDocuSign/Activities/Mail_Merge_Into_DocuSign_v1.cs:201-216 | false without a children list; otherwise true exactly when some child's template is the data source and its ordering is 1 |
| MailMerge.AnyFirstChild | terminalDocuSign/Activities/Mail_Merge_Into_DocuSign_v1.cs:208-213 | true exactly when some child's template is the data source and its ordering is 1 |
| MailMerge.Named | terminalDocuSign/Activities/Mail_Merge_Into_DocuSign_v1.cs:231 | exactly the templates with the given name |
| MailMerge.Single | terminalDocuSign/Activities/Mail_Merge_Into_DocuSign_v1.cs:231 | a selected template is one of the templates and has the given name |
| MailMerge.RemoveFirst | terminalDocuSign/Activities/Mail_Merge_Into_DocuSign_v1.cs:241 | List.Remove shortens the list by one exactly when the element is present |
| MailMerge.RemoveFirstMultiset | terminalDocuSign/Activities/Mail_Merge_Into_DocuSign_v1.cs:241 | removing a present element takes away exactly one copy of it |
| MailMerge.RemoveFirstAppended | terminalDocuSign/Activities/Mail_Merge_Into_DocuSign_v1.cs:235-241 | removing a just-added element that was not there before gives back the old children |
| MailMerge.MovedToFrontPermutes | terminalDocuSign/Activities/Mail_Merge_Into_DocuSign_v1.cs:241-242 | Remove then Insert(0) permutes the children and puts the element at index 0 |
| MailMerge.NewChildFirst | terminalDocuSign/Activities/Mail_Merge_Into_DocuSign_v1.cs:235-242 | the new child ends up first and the other children keep their order |
| MailMerge.CreatedFirstChildIsFound | terminalDocuSign/Activities/Mail_Merge_Into_DocuSign_v1.cs:201-244 | after CreateFirstChildActivity, HasFirstChildActivity finds the new child |
| MailMerge.DocumentationRouting | terminalDocuSign/Activities/Mail_Merge_Into_DocuSign_v1.cs:411-434 | "MainPage" wins; "HelpMenu" gives the mail-merge explanation, then the service explanation, then "Unknown contentPath"; anything else gives the unknown display mechanism error |
| MailMerge.MailMergeActivity.constructor | terminalDocuSign/Activities/Mail_Merge_Into_DocuSign_v1.cs:39-41 | a new activity has not recorded a data source value or a template list |
| MailMerge.MailMergeActivity.GetConfigurationRequestType | terminalDocuSign/Activities/Mail_Merge_Into_DocuSign_v1.cs:141-165 | the request type is `RequestTypeOf` the old state, and the new state is `AfterRequestType` of it |
| MailMerge.MailMergeActivity.CreateFirstChildActivity | terminalDocuSign/Activities/Mail_Merge_Into_DocuSign_v1.cs:224-244 | a template not matched exactly once fails and leaves the children; otherwise the new child, with ordering 1, is put before the old children, and nothing else changes |

## Left out

- I/O becomes inputs. The hub's HTTP calls (`RequestPolling`, `PostAsync`), the terminals' service calls (Salesforce queries and `CreateObject`, Twilio `SendSms`, Slack `GetChannelList` and `PostMessageToChat`, hub design-time field lookups), the SQL connection and write, and the database repositories all become function parameters or inputs. The model returns the request, post or crate these calls would receive.
- `ActionService`: the DocuSignFieldMissing events are returned as a list, in the order raised, rather than sent. The settings text is parsed by the `parse` parameter into the three shapes the code distinguishes.
- Concurrency is not modelled. `lock`, `async`/`await`, the Slack websocket (`Connect`, `ContinueWith`, the client's `Dispose`) and Hangfire's own scheduling are left out; each operation is a single sequential step.
- Library behaviour is taken as parameters: Regex `\w`, `char.IsDigit`, `IsLetter` and `IsWhiteSpace` (the `CharClasses` record), `PhoneNumberUtil.IsAlphaNumber`, `HttpUtility.UrlEncode`, JSON and XML parsing, `DateTime.ToString` and the Unix-time conversion, and `ControlHelper.ParseConditionToText`.
- `Strings.ToLower`: only ASCII letters are lower-cased, because the culture and Unicode case tables of `ToLower`/`ToLowerInvariant` are not reproduced.
- Ordering is ordinal: `ActionService` sorts by character code, not by the culture-sensitive string comparison `OrderBy` uses by default.
- Reflection is replaced by explicit data. `typeof(LeadDTO).GetProperties`, `GetType().Name`, `PropertyInfo.SetValue`, `Clone` and `ClearNavigationProperties` become explicit property lists, a class-name field and a property map.
- AutoMapper and Entity Framework are not modelled. `Mapper.Map` is the identity on the modelled columns. The EF repository `Add` is modelled as storing the row at once, as `SaveChanges` right after it does.
- `ActionService.ActionDO` models only the columns the service reads or writes. The remaining ActionDO columns cannot change in SaveOrUpdateAction and are not represented.
- `Alarms`: the authorization-token renewal is an input (the token found or not). Any exception inside `RequestPolling` is the `None` response. `Execute` (the container lookup and `Continue`) is not modelled, because it only hands on to the container service.
- `FieldDescriptions.FieldDescriptionsCM.FromFields` stands for both list constructors, the enumerable one and the params array, because they do the same thing. The Manifest base class and its manifest type constant are left out.
- `FieldDescriptions`: a field is a value, so aliasing of a FieldDTO shared between lists is not modelled.
- `ServerUrl`: `Init`, `Application_Start`, `Application_End`, `Application_Error` and `Application_PostAuthenticateRequest` are left out (dependency-injection bootstrapping and logging). The `#if DEBUG` call of `SetServerUrl` on every request is modelled as a call that may carry a request context.
- `SlackEvents.SubscribeValid`: the invariant is proved only for a non-empty team id. Under team "" the Unsubscribe guard leaves a stale subscription, as `EmptyTeamKeepsSubscription` shows.
- `SlackEvents`: a null token or a null `ExternalDomainId` in Subscribe is not modelled; team ids are strings.
- `SalesforceEvent`: dates are compared as integers; time zones and the `ToString` format are the `dateToString` parameter. A null SObject or a null Type inside a notification is not modelled.
- `SendSms`: the initial and follow-up configuration (the available-fields crate) and the activity template are left out, because they only relay hub data. The `EventManager` notifications in `RunETA` are also left out.
- `SendSms`: an exception thrown by `EventManager.TwilioSMSSent` after a successful send is not modelled.
- `WriteToSql`: the controls crate of `InitialConfigurationResponse`, `Activate`/`Deactivate`, `PrepareSQLWrite`'s connection-string extraction and the database write are left out.
- `WriteToSql`: a null `Split` result cannot occur in .NET and is not modelled.
- `GetData`: `InitializeETA` (the object-type list) and the `CrateSignaller` runtime announcement are left out; the announcement does not change the storage.
- `GetData`: `ToEnum` on an unknown object name is not modelled.
- `CreateLead`: `AddTextSourceControl`, `ExtractSpecificOrUpstreamValue` and `NeedsAuthentication` are not part of this model; they are parameters. The payload fetch is left out, because every outcome hands the payload back unchanged.
- `PublishToSlack`: the second `NeedsAuthentication` check (lines 38-41) is not modelled separately, because it cannot fire once the first has passed.
- `PublishToSlack`: the drop-down lists' field sources, `Required` flags and events are left out. The post itself is returned as a value rather than sent.
- `MailMerge`: `GetControl<T>` is modelled as a name lookup in the controls crates plus a kind test. `AtLeastOneItemExists` is modelled as a non-empty item list, and `ItemIsSelected` as a non-empty selected key.
- `MailMerge`: `ValidateTemplateList` is not part of this model. Its error does not change Validate's result.
- `MailMerge`: `AddAndConfigureChildActivity` is modelled as appending a child with ordering 1 and a fresh id, which stands for the new Guid. `GetActivityTemplate` is left out.
- `MailMerge`: the second child (`HasSecondChildActivity` and `CreateSecondChildActivity`), `ConfigureFirstChildActivity`, `FollowUpDS`, `InitializeDS`, `CreateConfigurationControlsCrate` and `RunDS` are left out.
- `MailMerge`: the solution version is a double in the source and a `real` here; it is used only in documentation text.
- The plan/container execution engine (`IPlan.Run`, `Continue`, `IProcess.Execute`) is not modelled, because those are interfaces without an implementation.

## Findings

| source | as written | input that shows it | evidently intended | confidence | as-written member | corrected member |
|---|---|---|---|---|---|---|
| terminalAzure/Actions/Write_To_Sql_Server_v1.cs:251-257 | the null guard tests `value`, which was just set to "" and is never null, instead of `valueField`; a mapped field whose key has no envelope value dereferences null | mapped field with key "Name" and value "t.c", and no envelope values: a NullReferenceException aborts the write | a missing envelope value writes "" to the column | high (not executed) | `WriteToSql.StepAsWritten`, shown by `WriteToSql.MissingValueFailsAsWritten` | `WriteToSql.Step`, used by `WriteToSql.CreateTables`, with `WriteToSql.StepFailsOnlyOnBadColumn` |
