/**
 * `Relation`: one live relation seen from the local unit, with a wrapper
 * per databag slot, fixed write permissions and the validity roll-ups.
 */
module Relations {
  import opened Verdicts
  import opened Models
  import opened Databags
  import Validator

  /** An application or a unit, by name. */
  datatype Entity = App(name: string) | Unit(name: string)

  /**
   * The framework's relation object: its id, the remote application, the
   * remote units and the databag of every entity taking part.
   */
  datatype OpsRelation = OpsRelation(id: nat, app: string, units: seq<string>, data: map<Entity, Databag>)
  {
    /** The framework holds a databag for every entity the wrappers look up. */
    predicate Covers(localApp: string, localUnit: string) {
      && App(localApp) in data && Unit(localUnit) in data && App(app) in data
      && forall u :: u in units ==> Unit(u) in data
    }
  }

  /** The databags a relation owns, for `reads` clauses. */
  function BagsOf(ops: OpsRelation): set<Databag> {
    ops.data.Values
  }

  /** The aggregation levels that expose a verdict. */
  datatype Level = LocalAppLevel | LocalUnitLevel | RemoteAppLevel | RemoteUnitsLevel
                 | LocalLevel | RemoteLevel | WholeLevel

  datatype Relation = Relation(
    localApp: string, localUnit: string, isLeader: bool, schema: RelationModel, ops: OpsRelation)
  {
    predicate WellFormed() {
      ops.Covers(localApp, localUnit)
    }

    /** `_wrap_data`: the entity's databag, the slot's schema and the given permission. */
    function WrapData(entity: Entity, slot: Slot, canWrite: bool): (p: WrapperParams)
      requires entity in ops.data
      ensures p.bag in BagsOf(ops)
      ensures p.bag == ops.data[entity] && p.model == schema.Get(slot) && p.canWrite == canWrite
    {
      WrapperParams(ops.data[entity], schema.Get(slot), canWrite)
    }

    /** `local_app_data`: writable only by the leader. */
    function LocalAppData(): (p: WrapperParams)
      requires WellFormed()
      ensures p.bag == ops.data[App(localApp)] && p.model == schema.Local().app
      ensures p.canWrite <==> isLeader
    {
      WrapData(App(localApp), LocalApp, isLeader)
    }

    /** `remote_app_data`: never writable. */
    function RemoteAppData(): (p: WrapperParams)
      requires WellFormed()
      ensures p.bag == ops.data[App(ops.app)] && p.model == schema.Remote().app && !p.canWrite
    {
      WrapData(App(ops.app), RemoteApp, false)
    }

    /** `local_unit_data`: always writable. */
    function LocalUnitData(): (p: WrapperParams)
      requires WellFormed()
      ensures p.bag == ops.data[Unit(localUnit)] && p.model == schema.Local().unit && p.canWrite
    {
      WrapData(Unit(localUnit), LocalUnit, true)
    }

    /** `remote_units_data`: one read-only wrapper per remote unit. */
    function RemoteUnitsData(): (m: map<string, WrapperParams>)
      requires WellFormed()
      ensures m.Keys == set u | u in ops.units
      ensures forall u :: u in m ==>
        m[u].bag == ops.data[Unit(u)] && m[u].model == schema.Remote().unit && !m[u].canWrite
    {
      map u | u in ops.units :: WrapData(Unit(u), RemoteUnit, false)
    }

    /** The verdicts of the remote units' databags, in the order of `units`. */
    function UnitVerdicts(units: seq<string>): (vs: seq<Verdict>)
      requires forall u :: u in units ==> Unit(u) in ops.data
      reads BagsOf(ops)
      ensures |vs| == |units|
      ensures forall i :: 0 <= i < |units| ==> vs[i] == WrapData(Unit(units[i]), RemoteUnit, false).Validity()
    {
      if units == [] then []
      else UnitVerdicts(units[..|units| - 1]) + [WrapData(Unit(units[|units| - 1]), RemoteUnit, false).Validity()]
    }

    /** `local_app_data_valid`: the verdict of the local application's databag under its schema. */
    function LocalAppValid(): (v: Verdict)
      requires WellFormed()
      reads BagsOf(ops)
      ensures v == Validator.Validity(schema.Local().app, ops.data[App(localApp)].data)
    {
      LocalAppData().Validity()
    }

    /** `local_unit_data_valid`: the verdict of the local unit's databag under its schema. */
    function LocalUnitValid(): (v: Verdict)
      requires WellFormed()
      reads BagsOf(ops)
      ensures v == Validator.Validity(schema.Local().unit, ops.data[Unit(localUnit)].data)
    {
      LocalUnitData().Validity()
    }

    /** `remote_app_data_valid`: the verdict of the remote application's databag under its schema. */
    function RemoteAppValid(): (v: Verdict)
      requires WellFormed()
      reads BagsOf(ops)
      ensures v == Validator.Validity(schema.Remote().app, ops.data[App(ops.app)].data)
    {
      RemoteAppData().Validity()
    }

    /** `remote_units_data_valid`: the worst case over the remote units (Valid when there are none). */
    function RemoteUnitsValid(): (v: Verdict)
      requires WellFormed()
      reads BagsOf(ops)
      ensures ops.units == [] ==> v == Verdict.Valid
      ensures forall i :: 0 <= i < |ops.units| ==>
        Rank(v) <= Rank(Validator.Validity(schema.Remote().unit, ops.data[Unit(ops.units[i])].data))
    {
      var vs := UnitVerdicts(ops.units);
      WorstOfIsMinimum(vs);
      WorstOf(vs)
    }

    /** `local_valid`: the worse of the local application and local unit verdicts. */
    function LocalValid(): (v: Verdict)
      requires WellFormed()
      reads BagsOf(ops)
      ensures v == Worst(LocalAppValid(), LocalUnitValid())
    {
      WorstOfPair(LocalAppValid(), LocalUnitValid());
      WorstOf([LocalAppValid(), LocalUnitValid()])
    }

    /** `remote_valid`: the worse of the remote application verdict and the remote units' worst case. */
    function RemoteValid(): (v: Verdict)
      requires WellFormed()
      reads BagsOf(ops)
      ensures v == Worst(RemoteAppValid(), RemoteUnitsValid())
    {
      WorstOfPair(RemoteAppValid(), RemoteUnitsValid());
      WorstOf([RemoteAppValid(), RemoteUnitsValid()])
    }

    /** `valid`: the worse of the local and remote sides. */
    function Valid(): (v: Verdict)
      requires WellFormed()
      reads BagsOf(ops)
      ensures v == Worst(LocalValid(), RemoteValid())
    {
      WorstOfPair(LocalValid(), RemoteValid());
      WorstOf([LocalValid(), RemoteValid()])
    }

    /** The verdict a relation exposes at each level. */
    function ValidAt(level: Level): Verdict
      requires WellFormed()
      reads BagsOf(ops)
    {
      match level
      case LocalAppLevel => LocalAppValid()
      case LocalUnitLevel => LocalUnitValid()
      case RemoteAppLevel => RemoteAppValid()
      case RemoteUnitsLevel => RemoteUnitsValid()
      case LocalLevel => LocalValid()
      case RemoteLevel => RemoteValid()
      case WholeLevel => Valid()
    }
  }

  /** The local unit may always write, the local application only when leader, remote entities never. */
  lemma WritePermissions(r: Relation)
    requires r.WellFormed()
    ensures r.LocalUnitData().canWrite
    ensures r.LocalAppData().canWrite <==> r.isLeader
    ensures !r.RemoteAppData().canWrite
    ensures forall u :: u in r.RemoteUnitsData() ==> !r.RemoteUnitsData()[u].canWrite
    ensures r.LocalAppData().model == r.schema.Local().app && r.LocalUnitData().model == r.schema.Local().unit
    ensures r.RemoteAppData().model == r.schema.Remote().app
    ensures forall u :: u in r.RemoteUnitsData() ==> r.RemoteUnitsData()[u].model == r.schema.Remote().unit
  {
  }

  /**
   * The relation's verdict is the worst case over every databag it involves:
   * local application, local unit, remote application and each remote unit.
   */
  lemma RelationValidIsWorstOfEveryBag(r: Relation)
    requires r.WellFormed()
    ensures r.Valid() == WorstOf([r.LocalAppValid(), r.LocalUnitValid(), r.RemoteAppValid()] + r.UnitVerdicts(r.ops.units))
  {
    var units := r.UnitVerdicts(r.ops.units);
    var head := [r.LocalAppValid(), r.LocalUnitValid(), r.RemoteAppValid()];
    WorstOfAppend(head, units);
    assert WorstOf(head) == Worst(Worst(r.LocalAppValid(), r.LocalUnitValid()), r.RemoteAppValid()) by {
      assert head[..2] == [r.LocalAppValid(), r.LocalUnitValid()];
      WorstOfPair(r.LocalAppValid(), r.LocalUnitValid());
    }
    WorstIsMeet(r.LocalValid(), r.RemoteAppValid(), r.RemoteUnitsValid());
  }

  /** The remote units' verdict is Invalid iff some remote unit's is, and Valid iff all are. */
  lemma RemoteUnitsVerdict(r: Relation)
    requires r.WellFormed()
    ensures r.RemoteUnitsValid() == Invalid <==>
      exists u :: u in r.ops.units && r.RemoteUnitsData()[u].Validity() == Invalid
    ensures r.RemoteUnitsValid() == Valid <==>
      forall u :: u in r.ops.units ==> r.RemoteUnitsData()[u].Validity() == Valid
  {
    var units := r.ops.units;
    var vs := r.UnitVerdicts(units);
    var m := r.RemoteUnitsData();
    WorstOfCases(vs);
    forall u | u in units
      ensures m[u].Validity() in vs
    {
      var i :| 0 <= i < |units| && units[i] == u;
      assert vs[i] == m[u].Validity();
    }
    forall i | 0 <= i < |vs|
      ensures units[i] in units && vs[i] == m[units[i]].Validity()
    {
    }
  }

  /** A relation is Valid exactly when each of its databags is. */
  lemma RelationValidIffEveryBagValid(r: Relation)
    requires r.WellFormed()
    ensures r.Valid() == Valid <==>
      && r.LocalAppValid() == Valid && r.LocalUnitValid() == Valid && r.RemoteAppValid() == Valid
      && forall u :: u in r.ops.units ==> r.RemoteUnitsData()[u].Validity() == Valid
  {
    RemoteUnitsVerdict(r);
  }
}
