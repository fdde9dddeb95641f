/**
 * PlanStorageProviderMockedDb.Update: applies a plan changeset to the
 * in-memory tables of the mocked database. All deletes run first, then all
 * inserts, then all updates; an update that finds no entity fails at its
 * first changed property, leaving the work done before it in place.
 */
module PlanStorage {
  import opened Wrappers

  datatype NodeKind = Activity | Plan | SubPlan | OtherNode

  /**
   * A plan node: its id, its concrete type, its scalar properties (a missing
   * name reads as null) and its navigation properties (referenced node ids).
   */
  datatype PlanNode = PlanNode(id: int, kind: NodeKind, properties: map<string, Option<string>>, navigation: map<string, int>)

  /** One entry of the changeset's update list: the node and the names of its changed properties. */
  datatype ChangedObject = ChangedObject(node: PlanNode, changedProperties: seq<string>)

  datatype Changes = Changes(delete: seq<PlanNode>, insert: seq<PlanNode>, update: seq<ChangedObject>)

  /** PropertyInfo.SetValue on a null entity. */
  datatype Failure = TargetException(nodeId: int, propertyName: string)

  /** The four tables: PlanNodes, the activity repository, Plans and SubPlans, each keyed by id. */
  datatype Store = Store(planNodes: map<int, PlanNode>, activities: map<int, PlanNode>,
                         plans: map<int, PlanNode>, subPlans: map<int, PlanNode>)

  /** Clone followed by ClearNavigationProperties. */
  function Detached(n: PlanNode): (r: PlanNode)
    ensures r.id == n.id && r.kind == n.kind && r.properties == n.properties && r.navigation == map[]
  {
    n.(navigation := map[])
  }

  /** The table of the kind's own type; nodes of other kinds live in PlanNodes. */
  function KindTable(s: Store, k: NodeKind): map<int, PlanNode> {
    match k
    case Activity => s.activities
    case Plan => s.plans
    case SubPlan => s.subPlans
    case OtherNode => s.planNodes
  }

  function WithKindTable(s: Store, k: NodeKind, t: map<int, PlanNode>): (r: Store)
    ensures KindTable(r, k) == t
    ensures forall k' :: k' != k ==> KindTable(r, k') == KindTable(s, k')
  {
    match k
    case Activity => s.(activities := t)
    case Plan => s.(plans := t)
    case SubPlan => s.(subPlans := t)
    case OtherNode => s.(planNodes := t)
  }

  /** One delete: out of PlanNodes, and out of its kind's table. */
  function DeleteOne(s: Store, n: PlanNode): Store {
    var s1 := s.(planNodes := s.planNodes - {n.id});
    WithKindTable(s1, n.kind, KindTable(s1, n.kind) - {n.id})
  }

  function DeleteAll(s: Store, ns: seq<PlanNode>): Store
    decreases |ns|
  {
    if |ns| == 0 then s else DeleteOne(DeleteAll(s, ns[..|ns| - 1]), ns[|ns| - 1])
  }

  /** One insert: the detached copy goes into exactly one table. */
  function InsertOne(s: Store, n: PlanNode): Store {
    WithKindTable(s, n.kind, KindTable(s, n.kind)[n.id := Detached(n)])
  }

  function InsertAll(s: Store, ns: seq<PlanNode>): Store
    decreases |ns|
  {
    if |ns| == 0 then s else InsertOne(InsertAll(s, ns[..|ns| - 1]), ns[|ns| - 1])
  }

  /** The stored entity an update writes to: none for other kinds or an unknown id. */
  function EntityFor(s: Store, n: PlanNode): Option<PlanNode> {
    if n.kind == OtherNode || n.id !in KindTable(s, n.kind) then None else Some(KindTable(s, n.kind)[n.id])
  }

  function GetValue(n: PlanNode, p: string): Option<string> {
    if p in n.properties then n.properties[p] else None
  }

  /** The entity after the values of the listed properties were copied from `source`. */
  function CopyProperties(entity: PlanNode, source: PlanNode, ps: seq<string>): PlanNode
    decreases |ps|
  {
    if |ps| == 0 then entity
    else
      var e := CopyProperties(entity, source, ps[..|ps| - 1]);
      e.(properties := e.properties[ps[|ps| - 1] := GetValue(source, ps[|ps| - 1])])
  }

  /** One update: every listed property copied onto the stored entity, or the failure. */
  function UpdateOne(s: Store, c: ChangedObject): Result<Store, Failure> {
    if |c.changedProperties| == 0 then Ok(s)
    else match EntityFor(s, c.node)
      case None => Err(TargetException(c.node.id, c.changedProperties[0]))
      case Some(e) =>
        Ok(WithKindTable(s, c.node.kind, KindTable(s, c.node.kind)[c.node.id := CopyProperties(e, c.node, c.changedProperties)]))
  }

  function UpdateAll(s: Store, cs: seq<ChangedObject>): (Store, Option<Failure>)
    decreases |cs|
  {
    if |cs| == 0 then (s, None)
    else
      var (s1, f) := UpdateAll(s, cs[..|cs| - 1]);
      if f.Some? then (s1, f)
      else match UpdateOne(s1, cs[|cs| - 1])
        case Ok(s2) => (s2, None)
        case Err(e) => (s1, Some(e))
  }

  /** Update(changes): deletes, then inserts, then updates. */
  function Apply(s: Store, changes: Changes): (Store, Option<Failure>) {
    UpdateAll(InsertAll(DeleteAll(s, changes.delete), changes.insert), changes.update)
  }

  // ---------------------------------------------------------------------
  // Properties

  /** One delete removes the id from PlanNodes and from its kind's table, and from no other. */
  lemma DeleteOneTables(s: Store, n: PlanNode, k: NodeKind)
    ensures KindTable(DeleteOne(s, n), k)
         == if k == OtherNode || k == n.kind then KindTable(s, k) - {n.id} else KindTable(s, k)
  {
  }

  /** A deleted node is in neither PlanNodes nor its kind's table. */
  lemma {:induction false} DeleteAllRemoves(s: Store, ns: seq<PlanNode>, i: int)
    requires 0 <= i < |ns|
    ensures ns[i].id !in DeleteAll(s, ns).planNodes && ns[i].id !in KindTable(DeleteAll(s, ns), ns[i].kind)
    decreases |ns|
  {
    var init := ns[..|ns| - 1];
    var last := ns[|ns| - 1];
    DeleteOneTables(DeleteAll(s, init), last, OtherNode);
    DeleteOneTables(DeleteAll(s, init), last, ns[i].kind);
    if i < |ns| - 1 {
      assert init[i] == ns[i];
      DeleteAllRemoves(s, init, i);
    }
  }

  /** Ids that are not deleted keep their rows in every table. */
  lemma {:induction false} DeleteAllKeepsOthers(s: Store, ns: seq<PlanNode>, k: NodeKind, id: int)
    requires forall n :: n in ns ==> n.id != id
    ensures (id in KindTable(DeleteAll(s, ns), k) <==> id in KindTable(s, k))
    ensures id in KindTable(s, k) ==> KindTable(DeleteAll(s, ns), k)[id] == KindTable(s, k)[id]
    decreases |ns|
  {
    if |ns| > 0 {
      var init := ns[..|ns| - 1];
      assert forall n :: n in init ==> n in ns;
      assert ns[|ns| - 1] in ns;
      DeleteAllKeepsOthers(s, init, k, id);
      DeleteOneTables(DeleteAll(s, init), ns[|ns| - 1], k);
    }
  }

  /** An insert writes the detached copy to its kind's table and changes no other table. */
  lemma InsertOnePlaces(s: Store, n: PlanNode)
    ensures var r := InsertOne(s, n);
      && KindTable(r, n.kind) == KindTable(s, n.kind)[n.id := Detached(n)]
      && forall k :: k != n.kind ==> KindTable(r, k) == KindTable(s, k)
    ensures n.kind != OtherNode ==> InsertOne(s, n).planNodes == s.planNodes
  {
  }

  /** With distinct ids, every inserted node ends up detached in its kind's table. */
  lemma {:induction false} InsertAllPlaces(s: Store, ns: seq<PlanNode>)
    requires forall i, j :: 0 <= i < j < |ns| ==> ns[i].id != ns[j].id
    ensures forall n :: n in ns ==>
      (n.id in KindTable(InsertAll(s, ns), n.kind) && KindTable(InsertAll(s, ns), n.kind)[n.id] == Detached(n))
    decreases |ns|
  {
    if |ns| > 0 {
      var init := ns[..|ns| - 1];
      InsertAllPlaces(s, init);
      forall n | n in ns
        ensures n.id in KindTable(InsertAll(s, ns), n.kind) && KindTable(InsertAll(s, ns), n.kind)[n.id] == Detached(n)
      {
        var i :| 0 <= i < |ns| && ns[i] == n;
        if i < |ns| - 1 {
          assert init[i] == n;
          assert n.id != ns[|ns| - 1].id;
        }
      }
    }
  }

  /** Copying touches the listed properties only, and each takes the source's value. */
  lemma {:induction false} CopyPropertiesSpec(entity: PlanNode, source: PlanNode, ps: seq<string>)
    ensures var r := CopyProperties(entity, source, ps);
      && r.id == entity.id && r.kind == entity.kind && r.navigation == entity.navigation
      && (forall p :: p in ps ==> p in r.properties && r.properties[p] == GetValue(source, p))
      && (forall p :: p !in ps ==> (p in r.properties <==> p in entity.properties))
      && (forall p :: p !in ps && p in entity.properties ==> r.properties[p] == entity.properties[p])
    decreases |ps|
  {
    if |ps| > 0 {
      var init := ps[..|ps| - 1];
      CopyPropertiesSpec(entity, source, init);
      assert forall p :: p in init ==> p in ps;
      forall p | p in ps ensures p in init || p == ps[|ps| - 1] {
        var i :| 0 <= i < |ps| && ps[i] == p;
        if i < |ps| - 1 {
          assert init[i] == p;
        }
      }
    }
  }

  /** An update of an Activity, Plan or SubPlan row changes only that row's listed properties. */
  lemma UpdateOneChangesOnlyListed(s: Store, c: ChangedObject)
    requires UpdateOne(s, c).Ok? && |c.changedProperties| > 0
    ensures var r := UpdateOne(s, c).value;
      var e := KindTable(s, c.node.kind)[c.node.id];
      var e' := KindTable(r, c.node.kind)[c.node.id];
      && c.node.kind != OtherNode && c.node.id in KindTable(s, c.node.kind)
      && (forall p :: p in c.changedProperties ==> p in e'.properties && e'.properties[p] == GetValue(c.node, p))
      && (forall p :: p !in c.changedProperties && p in e.properties ==> p in e'.properties && e'.properties[p] == e.properties[p])
      && e'.navigation == e.navigation
      && (forall k :: k != c.node.kind ==> KindTable(r, k) == KindTable(s, k))
      && (forall id :: id != c.node.id && id in KindTable(s, c.node.kind) ==>
            id in KindTable(r, c.node.kind) && KindTable(r, c.node.kind)[id] == KindTable(s, c.node.kind)[id])
  {
    CopyPropertiesSpec(KindTable(s, c.node.kind)[c.node.id], c.node, c.changedProperties);
  }

  /** Updating a node of another kind, or an unknown id, fails as soon as there is a property to set. */
  lemma UpdateOneWithoutEntityFails(s: Store, c: ChangedObject)
    requires |c.changedProperties| > 0
    requires c.node.kind == OtherNode || c.node.id !in KindTable(s, c.node.kind)
    ensures UpdateOne(s, c) == Err(TargetException(c.node.id, c.changedProperties[0]))
  {
  }

  /** An update without changed properties does nothing, whatever the node. */
  lemma UpdateOneNothingListed(s: Store, c: ChangedObject)
    requires |c.changedProperties| == 0
    ensures UpdateOne(s, c) == Ok(s)
  {
  }

  /** Deletes run before inserts: a node both deleted and inserted is present afterwards. */
  lemma DeleteThenInsert(s: Store, n: PlanNode, changes: Changes)
    requires n in changes.delete && n in changes.insert
    requires forall i, j :: 0 <= i < j < |changes.insert| ==> changes.insert[i].id != changes.insert[j].id
    ensures var afterInsert := InsertAll(DeleteAll(s, changes.delete), changes.insert);
      n.id in KindTable(afterInsert, n.kind) && KindTable(afterInsert, n.kind)[n.id] == Detached(n)
  {
    InsertAllPlaces(DeleteAll(s, changes.delete), changes.insert);
  }

  // ---------------------------------------------------------------------
  // The provider

  class PlanStorageProviderMockedDb {
    var planNodes: map<int, PlanNode>
    var activities: map<int, PlanNode>
    var plans: map<int, PlanNode>
    var subPlans: map<int, PlanNode>

    constructor (s: Store)
      ensures Tables() == s
    {
      planNodes, activities, plans, subPlans := s.planNodes, s.activities, s.plans, s.subPlans;
    }

    function Tables(): Store
      reads this
    {
      Store(planNodes, activities, plans, subPlans)
    }

    method SetTables(s: Store)
      modifies this
      ensures Tables() == s
    {
      planNodes, activities, plans, subPlans := s.planNodes, s.activities, s.plans, s.subPlans;
    }

    method Update(changes: Changes) returns (failure: Option<Failure>)
      modifies this
      ensures (Tables(), failure) == Apply(old(Tables()), changes)
    {
      var i := 0;
      while i < |changes.delete|
        invariant 0 <= i <= |changes.delete|
        invariant Tables() == DeleteAll(old(Tables()), changes.delete[..i])
      {
        var planNodeDo := changes.delete[i];
        assert changes.delete[..i + 1][..i] == changes.delete[..i];
        planNodes := planNodes - {planNodeDo.id};
        match planNodeDo.kind {
          case Activity => activities := activities - {planNodeDo.id};
          case Plan => plans := plans - {planNodeDo.id};
          case SubPlan => subPlans := subPlans - {planNodeDo.id};
          case OtherNode =>
        }
        i := i + 1;
      }
      assert changes.delete[..|changes.delete|] == changes.delete;
      ghost var afterDelete := Tables();

      i := 0;
      while i < |changes.insert|
        invariant 0 <= i <= |changes.insert|
        invariant Tables() == InsertAll(afterDelete, changes.insert[..i])
      {
        var entity := Detached(changes.insert[i]);
        assert changes.insert[..i + 1][..i] == changes.insert[..i];
        match entity.kind {
          case Activity => activities := activities[entity.id := entity];
          case Plan => plans := plans[entity.id := entity];
          case SubPlan => subPlans := subPlans[entity.id := entity];
          case OtherNode => planNodes := planNodes[entity.id := entity];
        }
        i := i + 1;
      }
      assert changes.insert[..|changes.insert|] == changes.insert;
      ghost var afterInsert := Tables();

      failure := None;
      i := 0;
      while i < |changes.update|
        invariant 0 <= i <= |changes.update|
        invariant (Tables(), None) == UpdateAll(afterInsert, changes.update[..i])
      {
        var changedObject := changes.update[i];
        assert changes.update[..i + 1][..i] == changes.update[..i];
        var f := UpdateNode(changedObject);
        if f.Some? {
          UpdateAllFailureSticks(afterInsert, changes.update, i + 1);
          return f;
        }
        i := i + 1;
      }
      assert changes.update[..|changes.update|] == changes.update;
    }

    /** One iteration of the update loop: the entity lookup and the property copies. */
    method UpdateNode(changedObject: ChangedObject) returns (failure: Option<Failure>)
      modifies this
      ensures match UpdateOne(old(Tables()), changedObject)
        case Ok(s) => failure.None? && Tables() == s
        case Err(e) => failure == Some(e) && Tables() == old(Tables())
    {
      var planNodeDo := changedObject.node;
      var entity := EntityFor(Tables(), planNodeDo);
      var ps := changedObject.changedProperties;
      if |ps| == 0 {
        return None;
      }
      if entity.None? {
        return Some(TargetException(planNodeDo.id, ps[0]));
      }
      var e := entity.value;
      var j := 0;
      while j < |ps|
        invariant 0 <= j <= |ps|
        invariant e == CopyProperties(entity.value, planNodeDo, ps[..j])
      {
        assert ps[..j + 1][..j] == ps[..j];
        e := e.(properties := e.properties[ps[j] := GetValue(planNodeDo, ps[j])]);
        j := j + 1;
      }
      assert ps[..|ps|] == ps;
      SetTables(WithKindTable(Tables(), planNodeDo.kind, KindTable(Tables(), planNodeDo.kind)[planNodeDo.id := e]));
      failure := None;
    }
  }

  /** After a failed update the remaining updates are skipped. */
  lemma {:induction false} UpdateAllFailureSticks(s: Store, cs: seq<ChangedObject>, i: nat)
    requires 0 < i <= |cs|
    requires UpdateAll(s, cs[..i]).1.Some?
    ensures UpdateAll(s, cs) == UpdateAll(s, cs[..i])
    decreases |cs| - i
  {
    if i < |cs| {
      assert cs[..i + 1][..i] == cs[..i];
      UpdateAllFailureSticks(s, cs, i + 1);
    } else {
      assert cs[..i] == cs;
    }
  }
}
