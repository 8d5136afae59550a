/**
 * The endpoint view (`_EndpointWrapper`, `Relations` in the older
 * revision): every live relation of one endpoint, aggregate verdicts,
 * collection accessors and the publication of schema defaults.
 */
module Endpoints {
  import opened Wrappers
  import opened Verdicts
  import opened Models
  import opened Validator
  import opened Databags
  import opened Relations

  /** The endpoint: the local application and unit, leadership and the resolved schema. */
  datatype Endpoint = Endpoint(localApp: string, localUnit: string, isLeader: bool, schema: RelationModel)

  /** `__init__`: the schema comes from `from_charm`; metadata and leadership are inputs. */
  function NewEndpoint(isRequirer: bool, template: Option<Template>, localApp: string, localUnit: string, isLeader: bool)
    : (e: Endpoint)
    ensures template.None? ==> e.schema == Unchecked
    ensures template.Some? && isRequirer ==> e.schema == AsRequirerModel(template.value)
    ensures template.Some? && !isRequirer ==> e.schema == AsProviderModel(template.value)
  {
    Endpoint(localApp, localUnit, isLeader, FromCharm(isRequirer, template))
  }

  /** `relations`: one `Relation` per live framework relation, in order, sharing the endpoint's schema. */
  function RelationsOf(e: Endpoint, live: seq<OpsRelation>): (rels: seq<Relation>)
    ensures |rels| == |live|
    ensures forall i :: 0 <= i < |live| ==>
      rels[i].ops == live[i] && rels[i].schema == e.schema && rels[i].localUnit == e.localUnit
      && rels[i].localApp == e.localApp && rels[i].isLeader == e.isLeader
  {
    seq(|live|, i requires 0 <= i < |live| => Relation(e.localApp, e.localUnit, e.isLeader, e.schema, live[i]))
  }

  /** `wrap`: the first relation wrapping the framework relation with the given id. */
  function Wrap(rels: seq<Relation>, id: nat): (r: Option<Relation>)
    ensures r.Some? ==> r.value in rels && r.value.ops.id == id
    ensures r.None? <==> forall i :: 0 <= i < |rels| ==> rels[i].ops.id != id
    ensures r.Some? ==> exists i :: (0 <= i < |rels| && rels[i] == r.value
      && forall j :: 0 <= j < i ==> rels[j].ops.id != id)
  {
    if rels == [] then None
    else if rels[0].ops.id == id then Some(rels[0])
    else
      var rest := Wrap(rels[1..], id);
      assert rest.Some? ==> exists i :: (1 <= i < |rels| && rels[i] == rest.value
        && forall j :: 0 <= j < i ==> rels[j].ops.id != id) by {
        if rest.Some? {
          var k :| 0 <= k < |rels[1..]| && rels[1..][k] == rest.value
            && forall j :: 0 <= j < k ==> rels[1..][j].ops.id != id;
          assert rels[k + 1] == rest.value;
        }
      }
      rest
  }

  predicate AllWellFormed(rels: seq<Relation>) {
    forall i :: 0 <= i < |rels| ==> rels[i].WellFormed()
  }

  /** Every databag of every relation, for `reads` clauses. */
  function AllBags(rels: seq<Relation>): set<Databag> {
    set r, b | r in rels && b in r.ops.data.Values :: b
  }

  /** The per-relation verdicts at one level, in relation order. */
  function VerdictsAt(rels: seq<Relation>, level: Level): (vs: seq<Verdict>)
    requires AllWellFormed(rels)
    reads AllBags(rels)
    ensures |vs| == |rels|
    ensures forall i :: 0 <= i < |rels| ==> vs[i] == rels[i].ValidAt(level)
  {
    if rels == [] then []
    else
      var init := rels[..|rels| - 1];
      assert forall r :: r in init ==> r in rels;
      VerdictsAt(init, level) + [rels[|rels| - 1].ValidAt(level)]
  }

  /**
   * The endpoint's `*_valid` properties: the worst case over its relations.
   * `local_unit_data_valid` and `local_app_data_valid` answer Valid outright
   * when there is no relation; the others reach Valid through the empty fold.
   */
  function EndpointValidAt(rels: seq<Relation>, level: Level): (v: Verdict)
    requires AllWellFormed(rels)
    reads AllBags(rels)
    ensures rels == [] ==> v == Valid
    ensures v == Invalid <==> exists i :: 0 <= i < |rels| && rels[i].ValidAt(level) == Invalid
    ensures v == Valid <==> forall i :: 0 <= i < |rels| ==> rels[i].ValidAt(level) == Valid
  {
    if (level == LocalUnitLevel || level == LocalAppLevel) && rels == [] then Valid
    else
      var vs := VerdictsAt(rels, level);
      WorstOfCases(vs);
      assert forall i :: 0 <= i < |rels| ==> vs[i] == rels[i].ValidAt(level);
      WorstOf(vs)
  }

  /** With no live relation every aggregate is Valid, the top-level ones included. */
  lemma NoRelationsIsValid(level: Level)
    ensures EndpointValidAt([], level) == Valid
  {
  }

  /**
   * The endpoint roll-ups agree with the per-relation ones: the endpoint's
   * `valid` is the worse of its `local_valid` and `remote_valid`, and each of
   * those the worse of its two parts.
   */
  lemma EndpointRollUp(rels: seq<Relation>)
    requires AllWellFormed(rels)
    ensures EndpointValidAt(rels, WholeLevel)
      == Worst(EndpointValidAt(rels, LocalLevel), EndpointValidAt(rels, RemoteLevel))
    ensures EndpointValidAt(rels, LocalLevel)
      == Worst(EndpointValidAt(rels, LocalAppLevel), EndpointValidAt(rels, LocalUnitLevel))
    ensures EndpointValidAt(rels, RemoteLevel)
      == Worst(EndpointValidAt(rels, RemoteAppLevel), EndpointValidAt(rels, RemoteUnitsLevel))
  {
    forall i | 0 <= i < |rels|
      ensures rels[i].ValidAt(WholeLevel) == Worst(rels[i].ValidAt(LocalLevel), rels[i].ValidAt(RemoteLevel))
      ensures rels[i].ValidAt(LocalLevel) == Worst(rels[i].ValidAt(LocalAppLevel), rels[i].ValidAt(LocalUnitLevel))
      ensures rels[i].ValidAt(RemoteLevel) == Worst(rels[i].ValidAt(RemoteAppLevel), rels[i].ValidAt(RemoteUnitsLevel))
    {
    }
    RollUpPair(rels, WholeLevel, LocalLevel, RemoteLevel);
    RollUpPair(rels, LocalLevel, LocalAppLevel, LocalUnitLevel);
    RollUpPair(rels, RemoteLevel, RemoteAppLevel, RemoteUnitsLevel);
  }

  /** If every relation's verdict at `whole` is the worse of its verdicts at `a` and `b`, so is the endpoint's. */
  lemma RollUpPair(rels: seq<Relation>, whole: Level, a: Level, b: Level)
    requires AllWellFormed(rels)
    requires whole != LocalUnitLevel && whole != LocalAppLevel
    requires forall i :: 0 <= i < |rels| ==> rels[i].ValidAt(whole) == Worst(rels[i].ValidAt(a), rels[i].ValidAt(b))
    ensures EndpointValidAt(rels, whole) == Worst(EndpointValidAt(rels, a), EndpointValidAt(rels, b))
  {
    if rels != [] {
      WorstOfPointwise(VerdictsAt(rels, whole), VerdictsAt(rels, a), VerdictsAt(rels, b));
    }
  }

  /** The wrapper a relation gives for one of its single-databag slots. */
  function SlotData(r: Relation, slot: Slot): WrapperParams
    requires r.WellFormed() && slot != RemoteUnit
  {
    match slot
    case LocalApp => r.LocalAppData()
    case RemoteApp => r.RemoteAppData()
    case LocalUnit => r.LocalUnitData()
  }

  /** No later relation has the same remote application as relation `i`. */
  predicate LastForApp(rels: seq<Relation>, i: int)
    requires 0 <= i < |rels|
  {
    forall j :: i < j < |rels| ==> rels[j].ops.app != rels[i].ops.app
  }

  /**
   * A dict comprehension over the relations keyed by remote application:
   * one key per remote application, the last relation with that key winning.
   */
  function ByRemoteApp(rels: seq<Relation>, slot: Slot): (m: map<string, WrapperParams>)
    requires AllWellFormed(rels) && slot != RemoteUnit
    ensures m.Keys == set r | r in rels :: r.ops.app
    ensures forall i :: 0 <= i < |rels| && LastForApp(rels, i) ==> m[rels[i].ops.app] == SlotData(rels[i], slot)
  {
    if rels == [] then map[]
    else
      var init := rels[..|rels| - 1];
      var last := rels[|rels| - 1];
      assert rels == init + [last];
      ByRemoteApp(init, slot)[last.ops.app := SlotData(last, slot)]
  }

  /** `local_apps_data`: the local application's wrapper per remote application. */
  function LocalAppsData(rels: seq<Relation>): (m: map<string, WrapperParams>)
    requires AllWellFormed(rels)
    ensures rels == [] ==> m == map[]
    ensures m.Keys == set r | r in rels :: r.ops.app
    ensures forall i :: 0 <= i < |rels| && LastForApp(rels, i) ==> m[rels[i].ops.app] == rels[i].LocalAppData()
  {
    if rels == [] then map[] else ByRemoteApp(rels, LocalApp)
  }

  /** `remote_apps_data`: the remote application's wrapper per remote application. */
  function RemoteAppsData(rels: seq<Relation>): (m: map<string, WrapperParams>)
    requires AllWellFormed(rels)
    ensures m.Keys == set r | r in rels :: r.ops.app
    ensures forall i :: 0 <= i < |rels| && LastForApp(rels, i) ==> m[rels[i].ops.app] == rels[i].RemoteAppData()
  {
    ByRemoteApp(rels, RemoteApp)
  }

  /** `local_unit_data` as the older revision keys it: the local unit's wrapper per remote application. */
  function LocalUnitsData(rels: seq<Relation>): (m: map<string, WrapperParams>)
    requires AllWellFormed(rels)
    ensures rels == [] ==> m == map[]
    ensures m.Keys == set r | r in rels :: r.ops.app
    ensures forall i :: 0 <= i < |rels| && LastForApp(rels, i) ==> m[rels[i].ops.app] == rels[i].LocalUnitData()
  {
    if rels == [] then map[] else ByRemoteApp(rels, LocalUnit)
  }

  /** With distinct remote applications, every relation's local unit databag is reachable. */
  lemma LocalUnitsDataKeepsEveryRelation(rels: seq<Relation>)
    requires AllWellFormed(rels)
    requires forall i, j :: 0 <= i < j < |rels| ==> rels[i].ops.app != rels[j].ops.app
    ensures |LocalUnitsData(rels)| == |rels|
    ensures forall i :: 0 <= i < |rels| ==> LocalUnitsData(rels)[rels[i].ops.app] == rels[i].LocalUnitData()
  {
    var m := LocalUnitsData(rels);
    AppsCount(rels);
  }

  /** Distinct remote applications give as many keys as relations. */
  lemma {:induction false} AppsCount(rels: seq<Relation>)
    requires forall i, j :: 0 <= i < j < |rels| ==> rels[i].ops.app != rels[j].ops.app
    ensures |set r | r in rels :: r.ops.app| == |rels|
  {
    if rels != [] {
      var init := rels[..|rels| - 1];
      var last := rels[|rels| - 1];
      AppsCount(init);
      var before := set r | r in init :: r.ops.app;
      assert (set r | r in rels :: r.ops.app) == before + {last.ops.app};
      assert last.ops.app !in before;
    }
  }

  /** `local_units_data` as the newer revision writes it: keyed by the local unit. */
  function LocalUnitsDataByLocalUnit(rels: seq<Relation>): (m: map<string, WrapperParams>)
    requires AllWellFormed(rels)
    ensures rels == [] ==> m == map[]
    ensures m.Keys == set r | r in rels :: r.localUnit
  {
    if rels == [] then map[]
    else
      var init := rels[..|rels| - 1];
      var last := rels[|rels| - 1];
      assert rels == init + [last];
      LocalUnitsDataByLocalUnit(init)[last.localUnit := last.LocalUnitData()]
  }

  /**
   * All relations of one endpoint share its local unit, so keying by it
   * keeps only the last relation: with two relations whose local unit
   * databags differ, the first one's is lost.
   */
  lemma {:induction false} ByLocalUnitKeepsOnlyLast(rels: seq<Relation>, unit: string)
    requires AllWellFormed(rels) && rels != []
    requires forall i :: 0 <= i < |rels| ==> rels[i].localUnit == unit
    ensures LocalUnitsDataByLocalUnit(rels) == map[unit := rels[|rels| - 1].LocalUnitData()]
    ensures |rels| == 2 && rels[0].LocalUnitData() != rels[1].LocalUnitData() ==>
      rels[0].LocalUnitData() !in LocalUnitsDataByLocalUnit(rels).Values
  {
    var init := rels[..|rels| - 1];
    if init != [] {
      ByLocalUnitKeepsOnlyLast(init, unit);
    }
  }

  /** Successive `dict.update`s: the union of the maps, each overriding those before it. */
  function Union<V>(ms: seq<map<string, V>>): map<string, V> {
    if ms == [] then map[] else Union(ms[..|ms| - 1]) + ms[|ms| - 1]
  }

  /** The union holds every key of every map, with the value of the last map that has it. */
  lemma {:induction false} UnionLaterWins<V>(ms: seq<map<string, V>>)
    ensures forall k :: k in Union(ms) <==> exists i :: 0 <= i < |ms| && k in ms[i]
    ensures forall i, k ::
      (0 <= i < |ms| && k in ms[i] && forall j :: i < j < |ms| ==> k !in ms[j])
      ==> Union(ms)[k] == ms[i][k]
  {
    if ms != [] {
      var init := ms[..|ms| - 1];
      UnionLaterWins(init);
      assert Union(ms) == Union(init) + ms[|ms| - 1];
      assert forall i :: 0 <= i < |init| ==> init[i] == ms[i];
      forall k | k in Union(ms)
        ensures exists i :: 0 <= i < |ms| && k in ms[i]
      {
        if k !in ms[|ms| - 1] {
          var i :| 0 <= i < |init| && k in init[i];
          assert k in ms[i];
        }
      }
    }
  }

  /** The remote-unit maps of the relations, in order. */
  function UnitMaps(rels: seq<Relation>): (ms: seq<map<string, WrapperParams>>)
    requires AllWellFormed(rels)
    ensures |ms| == |rels|
    ensures forall i :: 0 <= i < |rels| ==> ms[i] == rels[i].RemoteUnitsData()
  {
    seq(|rels|, i requires 0 <= i < |rels| && rels[i].WellFormed() => rels[i].RemoteUnitsData())
  }

  /** Builds a dict by updating an empty one with each map in turn. */
  method UpdateAll<V>(ms: seq<map<string, V>>) returns (data: map<string, V>)
    ensures data == Union(ms)
  {
    data := map[];
    for i := 0 to |ms|
      invariant data == Union(ms[..i])
    {
      assert ms[..i + 1][..i] == ms[..i];
      data := data + ms[i];
    }
    assert ms[..|ms|] == ms;
  }

  /**
   * `remote_units_data`: the dict updated with each relation's remote-unit
   * map in turn.
   */
  method RemoteUnitsData(rels: seq<Relation>) returns (data: map<string, WrapperParams>)
    requires AllWellFormed(rels)
    ensures data == Union(UnitMaps(rels))
  {
    data := UpdateAll(UnitMaps(rels));
  }

  /** The endpoint's remote units: every remote unit of every relation, the last relation having it winning. */
  lemma RemoteUnitsLaterWins(rels: seq<Relation>)
    requires AllWellFormed(rels)
    ensures forall u :: u in Union(UnitMaps(rels)) <==> exists i :: 0 <= i < |rels| && u in rels[i].ops.units
    ensures forall i, u ::
      (0 <= i < |rels| && u in rels[i].ops.units && forall j :: i < j < |rels| ==> u !in rels[j].ops.units)
      ==> Union(UnitMaps(rels))[u] == rels[i].RemoteUnitsData()[u]
  {
    var ms := UnitMaps(rels);
    UnionLaterWins(ms);
    forall i, u | 0 <= i < |rels|
      ensures u in ms[i] <==> u in rels[i].ops.units
    {
      assert ms[i].Keys == set v | v in rels[i].ops.units;
    }
  }

  /** Every default of the schema has the field's declared type. */
  predicate WellTypedDefaults(fields: Fields) {
    forall name :: name in fields && fields[name].default.Some? ==>
      fields[name].default.value.Type() == fields[name].ty
  }

  /** The texts publishing the given defaults stores: those of the declared type, JSON-encoded. */
  function Published(fields: Fields, defaults: map<string, Value>): (m: map<string, string>)
    ensures m.Keys <= defaults.Keys
    ensures forall k :: k in m ==> Deserialize(Some(fields), k, m[k]).Success?
  {
    var m := map k | k in defaults && k in fields && defaults[k].Type() == fields[k].ty :: JsonDumps(defaults[k]);
    assert forall k :: k in m ==> Deserialize(Some(fields), k, m[k]).Success? by {
      forall k | k in m
        ensures Deserialize(Some(fields), k, m[k]).Success?
      {
        if defaults[k].IntVal? {
          TypedIntRoundTrip(fields, k, defaults[k].i);
        }
      }
    }
    m
  }

  /** What `_publish_defaults` stores into a databag with the given schema. */
  function PublishedFor(model: Model, isDataclass: bool): map<string, string> {
    if model.None? then map[] else Published(model.value, GetDefaults(isDataclass, model.value))
  }

  /** Every default has the declared type of its field. */
  predicate DefaultsFit(fields: Fields, defaults: map<string, Value>)
    requires defaults.Keys <= fields.Keys
  {
    forall k :: k in defaults ==> defaults[k].Type() == fields[k].ty
  }

  /**
   * `_publish_defaults`: writes every default through `__setitem__`,
   * overwriting what is there. A default of the wrong type raises and stops
   * the loop, leaving the defaults written before it in place.
   */
  method PublishTo(w: DataWrapper, isDataclass: bool) returns (r: Outcome<Error>)
    requires w.params.canWrite
    modifies w.params.bag
    ensures w.params.model.None? ==> r == Pass && w.params.bag.data == old(w.params.bag.data)
    ensures w.params.model.Some? ==>
      (r.Pass? <==> DefaultsFit(w.params.model.value, GetDefaults(isDataclass, w.params.model.value)))
    ensures r.Pass? ==> w.params.bag.data == old(w.params.bag.data) + PublishedFor(w.params.model, isDataclass)
    ensures r.Fail? ==> r.error.Coercion?
    ensures r.Fail? ==> old(w.params.bag.data).Keys <= w.params.bag.data.Keys
    ensures r.Fail? ==> forall k :: k in w.params.bag.data ==>
      (k in PublishedFor(w.params.model, isDataclass) && w.params.bag.data[k] == PublishedFor(w.params.model, isDataclass)[k])
      || (k in old(w.params.bag.data) && w.params.bag.data[k] == old(w.params.bag.data)[k])
  {
    if w.params.model.None? {
      return Pass;
    }
    r := WriteAll(w, w.params.model.value, GetDefaults(isDataclass, w.params.model.value));
  }

  /** A permitted write under a declared key succeeds exactly for a value of the declared type. */
  lemma WriteDeclared(fields: Fields, key: string, v: Value)
    requires key in fields
    ensures Write(true, Some(fields), key, v)
      == if v.Type() == fields[key].ty then Success(JsonDumps(v)) else Failure(Coercion(key))
  {
  }

  /** Which defaults `Published` keeps, and the text it gives each. */
  lemma PublishedAt(fields: Fields, defaults: map<string, Value>, key: string)
    requires key in defaults && key in fields
    ensures key in Published(fields, defaults) <==> defaults[key].Type() == fields[key].ty
    ensures key in Published(fields, defaults) ==> Published(fields, defaults)[key] == JsonDumps(defaults[key])
  {
  }

  /** The write loop of `_publish_defaults`, over the defaults of the wrapper's schema. */
  method WriteAll(w: DataWrapper, fields: Fields, defaults: map<string, Value>) returns (r: Outcome<Error>)
    requires w.params.canWrite && w.params.model == Some(fields) && defaults.Keys <= fields.Keys
    modifies w.params.bag
    ensures r.Pass? <==> DefaultsFit(fields, defaults)
    ensures r.Pass? ==> w.params.bag.data == old(w.params.bag.data) + Published(fields, defaults)
    ensures r.Fail? ==> r.error.Coercion?
    ensures r.Fail? ==> old(w.params.bag.data).Keys <= w.params.bag.data.Keys
    ensures r.Fail? ==> forall k :: k in w.params.bag.data ==>
      (k in Published(fields, defaults) && w.params.bag.data[k] == Published(fields, defaults)[k])
      || (k in old(w.params.bag.data) && w.params.bag.data[k] == old(w.params.bag.data)[k])
  {
    ghost var published := Published(fields, defaults);
    ghost var done: map<string, string> := map[];
    var todo := defaults.Keys;
    r := Pass;
    while todo != {}
      invariant r == Pass
      invariant todo <= defaults.Keys
      invariant done.Keys == defaults.Keys - todo
      invariant forall k :: k in done ==> k in published && done[k] == published[k]
      invariant forall k :: k in defaults && k !in todo ==> defaults[k].Type() == fields[k].ty
      invariant w.params.bag.data == old(w.params.bag.data) + done
      decreases |todo|
    {
      var key :| key in todo;
      WriteDeclared(fields, key, defaults[key]);
      PublishedAt(fields, defaults, key);
      r := w.Set(key, defaults[key]);
      if r.Fail? {
        assert defaults[key].Type() != fields[key].ty;
        return;
      }
      UnionUpdate(old(w.params.bag.data), done, key, published[key]);
      done := done[key := published[key]];
      todo := todo - {key};
    }
    assert DefaultsFit(fields, defaults);
    forall k | k in defaults
      ensures k in published
    {
      PublishedAt(fields, defaults, k);
    }
    SameEntries(done, published);
  }

  /** Updating a union is updating its right operand. */
  lemma UnionUpdate(a: map<string, string>, b: map<string, string>, k: string, v: string)
    ensures (a + b)[k := v] == a + b[k := v]
  {
  }

  /** Two maps with the same keys that agree on every key are equal. */
  lemma SameEntries(a: map<string, string>, b: map<string, string>)
    requires a.Keys == b.Keys
    requires forall k :: k in a ==> a[k] == b[k]
    ensures a == b
  {
  }

  /** Publishing into a databag with this schema succeeds: no schema, or every default has its field's type. */
  predicate PublishFits(model: Model, isDataclass: bool) {
    model.None? || DefaultsFit(model.value, GetDefaults(isDataclass, model.value))
  }

  /**
   * What a publish that stopped part-way leaves: no key lost, and every key
   * holding either its old text or its published one.
   */
  predicate PartlyPublished(after: map<string, string>, before: map<string, string>, published: map<string, string>) {
    && before.Keys <= after.Keys
    && forall k :: k in after ==>
      (k in published && after[k] == published[k]) || (k in before && after[k] == before[k])
  }

  /**
   * `publish_defaults`: the local application's databag only when leader,
   * then always the local unit's; a failure on the first skips the second.
   */
  method PublishDefaults(r: Relation, isDataclass: bool) returns (out: Outcome<Error>)
    requires r.WellFormed()
    requires r.ops.data[App(r.localApp)] != r.ops.data[Unit(r.localUnit)]
    modifies r.ops.data[App(r.localApp)], r.ops.data[Unit(r.localUnit)]
    ensures out.Pass? <==>
      (r.isLeader ==> PublishFits(r.schema.localApp, isDataclass)) && PublishFits(r.schema.localUnit, isDataclass)
    ensures out.Fail? ==> out.error.Coercion?
    ensures !r.isLeader ==> r.ops.data[App(r.localApp)].data == old(r.ops.data[App(r.localApp)].data)
    ensures r.isLeader && PublishFits(r.schema.localApp, isDataclass) ==> (r.ops.data[App(r.localApp)].data
      == old(r.ops.data[App(r.localApp)].data) + PublishedFor(r.schema.localApp, isDataclass))
    ensures r.isLeader && !PublishFits(r.schema.localApp, isDataclass) ==>
      && r.ops.data[Unit(r.localUnit)].data == old(r.ops.data[Unit(r.localUnit)].data)
      && PartlyPublished(r.ops.data[App(r.localApp)].data, old(r.ops.data[App(r.localApp)].data),
           PublishedFor(r.schema.localApp, isDataclass))
    ensures out.Pass? ==> (r.ops.data[Unit(r.localUnit)].data
      == old(r.ops.data[Unit(r.localUnit)].data) + PublishedFor(r.schema.localUnit, isDataclass))
    ensures out.Fail? && (!r.isLeader || PublishFits(r.schema.localApp, isDataclass)) ==>
      PartlyPublished(r.ops.data[Unit(r.localUnit)].data, old(r.ops.data[Unit(r.localUnit)].data),
        PublishedFor(r.schema.localUnit, isDataclass))
  {
    var appData := new DataWrapper(r.LocalAppData());
    var unitData := new DataWrapper(r.LocalUnitData());
    if r.isLeader {
      out := PublishTo(appData, isDataclass);
      if out.Fail? {
        return;
      }
    }
    out := PublishTo(unitData, isDataclass);
  }

  /**
   * A databag holding only the published defaults of a well-typed schema is
   * Valid when the schema has no required field and Unfilled otherwise.
   */
  lemma DefaultsAloneVerdict(fields: Fields, isDataclass: bool)
    requires WellTypedDefaults(fields)
    ensures Validity(Some(fields), Published(fields, GetDefaults(isDataclass, fields)))
      == if exists name :: name in fields && fields[name].default.None? then Unfilled else Valid
  {
    var data := Published(fields, GetDefaults(isDataclass, fields));
    assert !HasBadEntry(fields, data);
    if !(exists name :: name in fields && fields[name].default.None?) {
      assert !MissingRequired(fields, data);
    }
  }

  /** Publishing defaults keeps a Valid databag Valid and adds no bad entry to any databag. */
  lemma PublishKeepsVerdict(fields: Fields, data: map<string, string>, isDataclass: bool)
    ensures var after := data + Published(fields, GetDefaults(isDataclass, fields));
      && (Validity(Some(fields), data) == Valid ==> Validity(Some(fields), after) == Valid)
      && (!HasBadEntry(fields, data) ==> !HasBadEntry(fields, after))
  {
    var pub := Published(fields, GetDefaults(isDataclass, fields));
    var after := data + pub;
    if HasBadEntry(fields, after) {
      var k :| k in after && BadEntry(fields, k, after[k]);
      assert k !in pub;
      assert k in data && BadEntry(fields, k, data[k]);
    }
    if MissingRequired(fields, after) {
      var name :| name in fields && name !in after && fields[name].default.None?;
      assert name !in data;
    }
  }
}
