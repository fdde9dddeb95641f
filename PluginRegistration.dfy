/**
 * BasePluginRegistration: a plugin's list of available actions and its base
 * address, the name of the registration type of an action registration, and
 * the idempotent registration of the plugin's actions in the repository.
 */
module PluginRegistration {
  import opened Strings

  /** ActionRegistrationDO: an action type offered by a plugin registration, per version. */
  datatype ActionRegistration = ActionRegistration(actionType: string, parentPluginRegistration: string, version: string)

  const NamePrefix := "Core.PluginRegistrations."
  const NameInfix := "PluginRegistration_v"

  /** AssembleName: the type name of the registration class that serves this action. */
  function AssembleName(r: ActionRegistration): string {
    NamePrefix + r.parentPluginRegistration + NameInfix + r.version
  }

  /** When versions contain no '_', the version is what follows the last "_v". */
  lemma AssembleNameVersion(r: ActionRegistration)
    requires forall i :: 0 <= i < |r.version| ==> r.version[i] != '_'
    ensures AfterLast(AssembleName(r), '_') == "v" + r.version
  {
    var s := AssembleName(r);
    var k := |s| - |r.version| - 2;
    assert s[k] == '_' && s[k + 1..] == "v" + r.version;
    assert forall j :: k < j < |s| ==> s[j] != '_';
  }

  /** ... and so, for such versions, different registrations name different types. */
  lemma AssembleNameInjective(r1: ActionRegistration, r2: ActionRegistration)
    requires forall i :: 0 <= i < |r1.version| ==> r1.version[i] != '_'
    requires forall i :: 0 <= i < |r2.version| ==> r2.version[i] != '_'
    requires AssembleName(r1) == AssembleName(r2)
    ensures r1.parentPluginRegistration == r2.parentPluginRegistration && r1.version == r2.version
  {
    AssembleNameVersion(r1);
    AssembleNameVersion(r2);
    assert r1.version == ("v" + r1.version)[1..] == ("v" + r2.version)[1..] == r2.version;
    var s := AssembleName(r1);
    var n := |s| - |NameInfix| - |r1.version|;
    assert r1.parentPluginRegistration == s[|NamePrefix|..n];
    assert r2.parentPluginRegistration == AssembleName(r2)[|NamePrefix|..n];
  }

  /** Whether an equal registration (type, version and parent) is already stored. */
  predicate Registered(rows: seq<ActionRegistration>, actionType: string, version: string, parent: string) {
    exists r :: r in rows && r.actionType == actionType && r.version == version && r.parentPluginRegistration == parent
  }

  /** One step of RegisterActions: add the action under `parent` unless it is there. */
  function RegisterOne(rows: seq<ActionRegistration>, action: ActionRegistration, parent: string): seq<ActionRegistration> {
    if Registered(rows, action.actionType, action.version, parent) then rows
    else rows + [ActionRegistration(action.actionType, parent, action.version)]
  }

  /** RegisterActions: every action in turn, each add visible to the next check. */
  function RegisterAll(rows: seq<ActionRegistration>, actions: seq<ActionRegistration>, parent: string): seq<ActionRegistration>
    decreases |actions|
  {
    if |actions| == 0 then rows else RegisterAll(RegisterOne(rows, actions[0], parent), actions[1..], parent)
  }

  /** No two stored registrations agree on type, version and parent. */
  predicate NoDuplicates(rows: seq<ActionRegistration>) {
    forall i, j :: 0 <= i < j < |rows| ==>
      !(rows[i].actionType == rows[j].actionType && rows[i].version == rows[j].version
        && rows[i].parentPluginRegistration == rows[j].parentPluginRegistration)
  }

  /** Registration only appends, and everything it appends carries the parent's name. */
  lemma {:induction false} RegisterAllAppends(rows: seq<ActionRegistration>, actions: seq<ActionRegistration>, parent: string)
    ensures var r := RegisterAll(rows, actions, parent);
      |rows| <= |r| <= |rows| + |actions| && r[..|rows|] == rows
      && forall i :: |rows| <= i < |r| ==> r[i].parentPluginRegistration == parent
    decreases |actions|
  {
    if |actions| > 0 {
      var next := RegisterOne(rows, actions[0], parent);
      RegisterAllAppends(next, actions[1..], parent);
      var r := RegisterAll(next, actions[1..], parent);
      assert r[..|next|][..|rows|] == r[..|rows|];
    }
  }

  /** Afterwards every action is registered under the parent. */
  lemma {:induction false} RegisterAllCovers(rows: seq<ActionRegistration>, actions: seq<ActionRegistration>, parent: string)
    ensures forall a :: a in actions ==> Registered(RegisterAll(rows, actions, parent), a.actionType, a.version, parent)
    ensures forall a, t, v :: Registered(rows, t, v, a) ==> Registered(RegisterAll(rows, actions, parent), t, v, a)
    decreases |actions|
  {
    if |actions| > 0 {
      var next := RegisterOne(rows, actions[0], parent);
      RegisterAllCovers(next, actions[1..], parent);
      assert Registered(next, actions[0].actionType, actions[0].version, parent) by {
        if !Registered(rows, actions[0].actionType, actions[0].version, parent) {
          assert next[|rows|] in next;
        }
      }
      forall a, t, v | Registered(rows, t, v, a) ensures Registered(next, t, v, a) {
        var w :| w in rows && w.actionType == t && w.version == v && w.parentPluginRegistration == a;
        assert w in next;
      }
    }
  }

  /** With every action already registered, registration adds nothing. */
  lemma {:induction false} RegisterAllKnown(rows: seq<ActionRegistration>, actions: seq<ActionRegistration>, parent: string)
    requires forall a :: a in actions ==> Registered(rows, a.actionType, a.version, parent)
    ensures RegisterAll(rows, actions, parent) == rows
    decreases |actions|
  {
    if |actions| > 0 {
      assert actions[0] in actions;
      assert forall a :: a in actions[1..] ==> a in actions;
      RegisterAllKnown(rows, actions[1..], parent);
    }
  }

  /** Registering twice is registering once. */
  lemma RegisterAllIdempotent(rows: seq<ActionRegistration>, actions: seq<ActionRegistration>, parent: string)
    ensures RegisterAll(RegisterAll(rows, actions, parent), actions, parent) == RegisterAll(rows, actions, parent)
  {
    RegisterAllCovers(rows, actions, parent);
    RegisterAllKnown(RegisterAll(rows, actions, parent), actions, parent);
  }

  /** Registration never introduces a duplicate, even from duplicates inside one list. */
  lemma {:induction false} RegisterAllNoDuplicates(rows: seq<ActionRegistration>, actions: seq<ActionRegistration>, parent: string)
    requires NoDuplicates(rows)
    ensures NoDuplicates(RegisterAll(rows, actions, parent))
    decreases |actions|
  {
    if |actions| > 0 {
      var next := RegisterOne(rows, actions[0], parent);
      assert NoDuplicates(next) by {
        if !Registered(rows, actions[0].actionType, actions[0].version, parent) {
          forall i, j | 0 <= i < j < |next|
            ensures !(next[i].actionType == next[j].actionType && next[i].version == next[j].version
                      && next[i].parentPluginRegistration == next[j].parentPluginRegistration)
          {
            if j == |rows| {
              assert next[i] in rows;
            }
          }
        }
      }
      RegisterAllNoDuplicates(next, actions[1..], parent);
    }
  }

  /** The store of action registrations. */
  class RegistrationRepository {
    var rows: seq<ActionRegistration>

    constructor (initial: seq<ActionRegistration>)
      ensures rows == initial
    {
      rows := initial;
    }

    /** Add followed by SaveChanges: the row is stored at once. */
    method Add(r: ActionRegistration)
      modifies this
      ensures rows == old(rows) + [r]
    {
      rows := rows + [r];
    }
  }

  /** A plugin registration: its action list, its base address and the name of its class. */
  class BasePluginRegistration {
    var availableActions: seq<ActionRegistration>
    var baseUrl: string
    /** this.GetType().Name: the name of the concrete registration class. */
    const typeName: string

    constructor (curAvailableActions: seq<ActionRegistration>, curBaseUrl: string, typeName: string)
      ensures availableActions == curAvailableActions && BaseUrl() == curBaseUrl && this.typeName == typeName
    {
      availableActions := curAvailableActions;
      baseUrl := curBaseUrl;
      this.typeName := typeName;
    }

    /** The BaseUrl getter: the address given to the constructor. */
    function BaseUrl(): string
      reads this
    {
      baseUrl
    }

    /** The BaseUrl setter does nothing. */
    method SetBaseUrl(value: string)
      ensures BaseUrl() == old(BaseUrl())
    {
    }

    method RegisterActions(repo: RegistrationRepository)
      modifies repo
      ensures repo.rows == RegisterAll(old(repo.rows), availableActions, typeName)
    {
      var i := 0;
      while i < |availableActions|
        invariant 0 <= i <= |availableActions|
        invariant RegisterAll(repo.rows, availableActions[i..], typeName)
               == RegisterAll(old(repo.rows), availableActions, typeName)
      {
        var action := availableActions[i];
        var curParentPluginRegistration := typeName;
        assert availableActions[i..][1..] == availableActions[i + 1..];
        if !Registered(repo.rows, action.actionType, action.version, curParentPluginRegistration) {
          repo.Add(ActionRegistration(action.actionType, curParentPluginRegistration, action.version));
        }
        i := i + 1;
      }
    }
  }
}
