/**
 * Databag schemas ("models"), the provider/requirer template and its
 * resolution to the four databag slots of one relation.
 */
module Models {
  import opened Wrappers

  /** The declared types a field may have. */
  datatype FieldType = IntType | StrType

  /** A domain value of one of those types. */
  datatype Value = IntVal(i: int) | StrVal(s: string) {
    /** The type `isinstance` matches this value against. */
    function Type(): FieldType {
      match this
      case IntVal(_) => IntType
      case StrVal(_) => StrType
    }
  }

  /** A declared field: its type and its default, if any. A field without a default is required. */
  datatype Field = Field(ty: FieldType, default: Option<Value>)

  /** The fields of a record type, by name. */
  type Fields = map<string, Field>

  /** The schema of one databag: absent (nothing is validated) or a record type. */
  type Model = Option<Fields>

  /** `DataBagModel`: schemas for the application databag and for each unit databag. */
  datatype DataBagModel = DataBagModel(app: Model, unit: Model)

  /** `Template`: what each side of the integration publishes. */
  datatype Template = Template(requirer: Option<DataBagModel>, provider: Option<DataBagModel>) {
    /** The same template with the two sides exchanged. */
    function Flipped(): Template {
      Template(provider, requirer)
    }
  }

  /** The four databags of a relation, named as `RelationModel.get` names them. */
  datatype Slot = LocalApp | RemoteApp | LocalUnit | RemoteUnit

  /** `RelationModel`: the schema of each databag as seen from one side. */
  datatype RelationModel = RelationModel(
    localApp: Model, remoteApp: Model, localUnit: Model, remoteUnit: Model)
  {
    /** What the local application and unit publish. */
    function Local(): DataBagModel {
      DataBagModel(localApp, localUnit)
    }

    /** What the remote application and units publish. */
    function Remote(): DataBagModel {
      DataBagModel(remoteApp, remoteUnit)
    }

    /** The same relation seen from the other end. */
    function Mirrored(): RelationModel {
      RelationModel(remoteApp, localApp, remoteUnit, localUnit)
    }

    /** `get(name)`: the schema of one slot. */
    function Get(slot: Slot): (m: Model)
      ensures slot == LocalApp ==> m == Local().app
      ensures slot == LocalUnit ==> m == Local().unit
      ensures slot == RemoteApp ==> m == Remote().app
      ensures slot == RemoteUnit ==> m == Remote().unit
    {
      match slot
      case LocalApp => localApp
      case RemoteApp => remoteApp
      case LocalUnit => localUnit
      case RemoteUnit => remoteUnit
    }
  }

  /** The model with no schema anywhere: nothing is validated. */
  const Unchecked := RelationModel(None, None, None, None)

  /** A template side, with both schemas absent when the side is missing. */
  function SideOf(side: Option<DataBagModel>): DataBagModel {
    side.GetOr(DataBagModel(None, None))
  }

  /** `as_requirer_model`: the requirer side is local, the provider side remote. */
  function AsRequirerModel(t: Template): (m: RelationModel)
    ensures m.Local() == SideOf(t.requirer) && m.Remote() == SideOf(t.provider)
  {
    RelationModel(
      localApp := if t.requirer.Some? then t.requirer.value.app else None,
      localUnit := if t.requirer.Some? then t.requirer.value.unit else None,
      remoteApp := if t.provider.Some? then t.provider.value.app else None,
      remoteUnit := if t.provider.Some? then t.provider.value.unit else None)
  }

  /** `as_provider_model`: the provider side is local, the requirer side remote. */
  function AsProviderModel(t: Template): (m: RelationModel)
    ensures m.Local() == SideOf(t.provider) && m.Remote() == SideOf(t.requirer)
  {
    RelationModel(
      localApp := if t.provider.Some? then t.provider.value.app else None,
      localUnit := if t.provider.Some? then t.provider.value.unit else None,
      remoteApp := if t.requirer.Some? then t.requirer.value.app else None,
      remoteUnit := if t.requirer.Some? then t.requirer.value.unit else None)
  }

  /**
   * `from_charm`: the requirer view when the endpoint is declared under
   * `requires` in the charm metadata, the provider view otherwise, and no
   * schema at all without a template.
   */
  function FromCharm(isRequirer: bool, template: Option<Template>): (m: RelationModel)
    ensures template.None? ==> m == Unchecked
    ensures template.Some? ==>
      m.Local() == SideOf(if isRequirer then template.value.requirer else template.value.provider)
      && m.Remote() == SideOf(if isRequirer then template.value.provider else template.value.requirer)
  {
    if template.None? then Unchecked
    else if isRequirer then AsRequirerModel(template.value)
    else AsProviderModel(template.value)
  }

  /** The two resolutions are mirror images, and resolving the flipped template swaps the roles. */
  lemma RoleResolutionIsSwap(t: Template)
    ensures AsProviderModel(t) == AsRequirerModel(t).Mirrored()
    ensures AsRequirerModel(t) == AsProviderModel(t).Mirrored()
    ensures AsRequirerModel(t) == AsProviderModel(t.Flipped())
    ensures AsRequirerModel(t).Mirrored().Mirrored() == AsRequirerModel(t)
  {
  }

  /** A missing side leaves its two slots unchecked in both views. */
  lemma MissingSideIsUnchecked(t: Template)
    requires t.provider.None?
    ensures AsRequirerModel(t).remoteApp.None? && AsRequirerModel(t).remoteUnit.None?
    ensures AsProviderModel(t).localApp.None? && AsProviderModel(t).localUnit.None?
  {
  }
}
