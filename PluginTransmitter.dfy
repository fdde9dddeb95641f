/**
 * PluginTransmitter.CallActionAsync: resolves the plugin that serves an
 * action, points the client's base address at the plugin's endpoint and
 * builds the relative request "actions/<name>". The HTTP post itself is
 * not modelled: the method returns the request it would post.
 */
module PluginTransmitter {
  import opened Wrappers
  import opened Strings

  datatype ActivityTemplate = ActivityTemplate(id: int, pluginId: int)

  /** The parts of ActionDTO the transmitter reads. */
  datatype ActionDTO = ActionDTO(activityTemplateId: Option<int>, activityTemplate: Option<ActivityTemplate>)

  datatype Plugin = Plugin(id: int, endpoint: Option<string>)

  datatype Failure =
    | ArgumentNull           // a null ActionDTO
    | ArgumentOutOfRange     // neither a template nor a template id
    | NullReference          // GetByKey found no template with that id

  /** What PostAsync is called with: the base address, the relative URI and the body. */
  datatype Request = Request(baseUri: Option<string>, requestUri: string, body: ActionDTO)

  /** The characters the pattern [^-_\w\d] leaves alone. */
  predicate AllowedInName(c: char, cc: CharClasses) {
    c == '-' || c == '_' || cc.isWord(c) || cc.isDigit(c)
  }

  /** Regex.Replace(name, @"[^-_\w\d]", "_"): every other character becomes '_'. */
  function NormalizeActionName(s: string, cc: CharClasses): (r: string)
    ensures |r| == |s|
  {
    if |s| == 0 then ""
    else [if AllowedInName(s[0], cc) then s[0] else '_'] + NormalizeActionName(s[1..], cc)
  }

  /** The normalised name is made of allowed characters only. */
  lemma {:induction false} NormalizedNameAllowed(s: string, cc: CharClasses)
    ensures forall i :: 0 <= i < |NormalizeActionName(s, cc)| ==> AllowedInName(NormalizeActionName(s, cc)[i], cc)
  {
    if |s| > 0 {
      NormalizedNameAllowed(s[1..], cc);
    }
  }

  /** Allowed characters stay where they are; the others become '_'. */
  lemma {:induction false} NormalizedNamePositions(s: string, cc: CharClasses)
    ensures forall i :: 0 <= i < |s| ==>
      NormalizeActionName(s, cc)[i] == (if AllowedInName(s[i], cc) then s[i] else '_')
  {
    if |s| > 0 {
      NormalizedNamePositions(s[1..], cc);
      assert forall i :: 1 <= i < |s| ==> NormalizeActionName(s, cc)[i] == NormalizeActionName(s[1..], cc)[i - 1];
    }
  }

  /** A name already made of allowed characters is kept as it is. */
  lemma {:induction false} NormalizeKeepsAllowedName(s: string, cc: CharClasses)
    requires forall i :: 0 <= i < |s| ==> AllowedInName(s[i], cc)
    ensures NormalizeActionName(s, cc) == s
  {
    if |s| > 0 {
      NormalizeKeepsAllowedName(s[1..], cc);
    }
  }

  /** Normalising twice is normalising once. */
  lemma NormalizeIdempotent(s: string, cc: CharClasses)
    ensures NormalizeActionName(NormalizeActionName(s, cc), cc) == NormalizeActionName(s, cc)
  {
    NormalizedNameAllowed(s, cc);
    NormalizeKeepsAllowedName(NormalizeActionName(s, cc), cc);
  }

  /** IPlugin.GetAll().FirstOrDefault(x => x.Id == id) */
  function FindPlugin(plugins: seq<Plugin>, id: int): (r: Option<Plugin>)
    ensures r.Some? ==> r.value in plugins && r.value.id == id
    ensures r.None? <==> forall p :: p in plugins ==> p.id != id
  {
    if |plugins| == 0 then None
    else if plugins[0].id == id then Some(plugins[0])
    else FindPlugin(plugins[1..], id)
  }

  /** The base address for a plugin: none without an endpoint, "http://" added unless it starts with "http". */
  function BaseUriFor(plugin: Option<Plugin>): (r: Option<string>)
    ensures r.None? <==> plugin.None? || IsNullOrEmpty(plugin.value.endpoint)
    ensures r.Some? ==> StartsWith(r.value, "http")
    ensures r.Some? && StartsWith(plugin.value.endpoint.value, "http") ==> r.value == plugin.value.endpoint.value
    ensures r.Some? && !StartsWith(plugin.value.endpoint.value, "http") ==> r.value == "http://" + plugin.value.endpoint.value
  {
    if plugin.None? || IsNullOrEmpty(plugin.value.endpoint) then None
    else
      var e := plugin.value.endpoint.value;
      if StartsWith(e, "http") then Some(e) else Some("http://" + e)
  }

  /** The plugin id: the explicit template's wins, else the id is looked up. */
  function PluginIdOf(dto: ActionDTO, templates: map<int, ActivityTemplate>): Result<int, Failure> {
    match dto.activityTemplate
    case Some(t) => Ok(t.pluginId)
    case None =>
      if dto.activityTemplateId.Some? && dto.activityTemplateId.value in templates then
        Ok(templates[dto.activityTemplateId.value].pluginId)
      else Err(NullReference)
  }

  /** The outcome of CallActionAsync short of the post: the request, or the exception. */
  function Transmit(curActionType: string, dto: Option<ActionDTO>, templates: map<int, ActivityTemplate>,
                    plugins: seq<Plugin>, cc: CharClasses): Result<Request, Failure>
  {
    if dto.None? then Err(ArgumentNull)
    else
      var d := dto.value;
      if (d.activityTemplateId.None? || d.activityTemplateId.value == 0) && d.activityTemplate.None? then
        Err(ArgumentOutOfRange)
      else match PluginIdOf(d, templates)
        case Err(e) => Err(e)
        case Ok(pid) =>
          Ok(Request(BaseUriFor(FindPlugin(plugins, pid)), "actions/" + NormalizeActionName(curActionType, cc), d))
  }

  /** The transmitter: a REST client whose base address each call resets. */
  class Transmitter {
    var BaseUri: Option<string>

    constructor ()
      ensures BaseUri.None?
    {
      BaseUri := None;
    }

    method CallActionAsync(curActionType: string, actionDTO: Option<ActionDTO>,
                           templates: map<int, ActivityTemplate>, plugins: seq<Plugin>, cc: CharClasses)
      returns (r: Result<Request, Failure>)
      modifies this
      ensures r == Transmit(curActionType, actionDTO, templates, plugins, cc)
      ensures r.Ok? ==> BaseUri == r.value.baseUri
      ensures r.Err? ==> BaseUri == old(BaseUri)
    {
      if actionDTO.None? {
        return Err(ArgumentNull);
      }
      var d := actionDTO.value;
      if (d.activityTemplateId.None? || d.activityTemplateId.value == 0) && d.activityTemplate.None? {
        return Err(ArgumentOutOfRange);
      }
      var pluginId: int;
      if d.activityTemplate.None? {
        if d.activityTemplateId.value !in templates {
          return Err(NullReference);
        }
        pluginId := templates[d.activityTemplateId.value].pluginId;
      } else {
        pluginId := d.activityTemplate.value.pluginId;
      }
      var plugin := FindPlugin(plugins, pluginId);
      if plugin.None? || IsNullOrEmpty(plugin.value.endpoint) {
        BaseUri := None;
      } else {
        var e := plugin.value.endpoint.value;
        BaseUri := Some(if StartsWith(e, "http") then e else "http://" + e);
      }
      var actionName := NormalizeActionName(curActionType, cc);
      r := Ok(Request(BaseUri, "actions/" + actionName, d));
    }
  }

  /** A DTO with neither a template nor a non-zero template id is refused before any lookup. */
  lemma TransmitNeedsTemplate(name: string, d: ActionDTO, templates: map<int, ActivityTemplate>,
                              plugins: seq<Plugin>, cc: CharClasses)
    ensures Transmit(name, Some(d), templates, plugins, cc) == Err(ArgumentOutOfRange)
        <==> (d.activityTemplateId.None? || d.activityTemplateId.value == 0) && d.activityTemplate.None?
  {
  }

  /** An explicit template decides the plugin, whatever the template id says. */
  lemma TransmitTemplateWins(name: string, d: ActionDTO, t: ActivityTemplate,
                             templates: map<int, ActivityTemplate>, plugins: seq<Plugin>, cc: CharClasses)
    requires d.activityTemplate == Some(t)
    ensures Transmit(name, Some(d), templates, plugins, cc).Ok?
    ensures Transmit(name, Some(d), templates, plugins, cc).value.baseUri == BaseUriFor(FindPlugin(plugins, t.pluginId))
  {
  }

  /** A successful call posts the body it was given to "actions/" and a name of allowed characters. */
  lemma TransmitRequestUri(name: string, dto: Option<ActionDTO>, templates: map<int, ActivityTemplate>,
                           plugins: seq<Plugin>, cc: CharClasses)
    requires Transmit(name, dto, templates, plugins, cc).Ok?
    ensures var req := Transmit(name, dto, templates, plugins, cc).value;
      && StartsWith(req.requestUri, "actions/")
      && |req.requestUri| == 8 + |name|
      && (forall i :: 8 <= i < |req.requestUri| ==> AllowedInName(req.requestUri[i], cc))
      && Some(req.body) == dto
  {
    NormalizedNameAllowed(name, cc);
    var req := Transmit(name, dto, templates, plugins, cc).value;
    assert req.requestUri[8..] == NormalizeActionName(name, cc);
  }
}
