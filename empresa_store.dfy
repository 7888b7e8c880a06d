/** The company-configuration store: one `EmpresaConfig` record, merged in place. */
module EmpresaStore {
  import opened Wrappers

  datatype EmpresaConfig = EmpresaConfig(
    nombre: string,
    nif: string,
    direccion: string,
    codigoPostal: string,
    ciudad: string,
    telefono: string,
    email: string,
    logo: Option<string>)

  /**
   * `Partial<EmpresaConfig>`. For the optional `logo`, `Some(None)` is a
   * patch that carries the key with value `undefined`, which clears it.
   */
  datatype ConfigPatch = ConfigPatch(
    nombre: Option<string>,
    nif: Option<string>,
    direccion: Option<string>,
    codigoPostal: Option<string>,
    ciudad: Option<string>,
    telefono: Option<string>,
    email: Option<string>,
    logo: Option<Option<string>>)

  const EmptyPatch := ConfigPatch(None, None, None, None, None, None, None, None)

  /** `defaultConfig`: no logo. */
  const DefaultConfig := EmpresaConfig(
    "Tu Empresa S.L.", "B12345678", "Calle Principal 123", "28001",
    "Madrid", "912345678", "info@tuempresa.com", None)

  /** `{ ...config, ...patch }`. */
  function Merge(c: EmpresaConfig, p: ConfigPatch): EmpresaConfig {
    c.(nombre := p.nombre.GetOr(c.nombre),
       nif := p.nif.GetOr(c.nif),
       direccion := p.direccion.GetOr(c.direccion),
       codigoPostal := p.codigoPostal.GetOr(c.codigoPostal),
       ciudad := p.ciudad.GetOr(c.ciudad),
       telefono := p.telefono.GetOr(c.telefono),
       email := p.email.GetOr(c.email),
       logo := p.logo.GetOr(c.logo))
  }

  /** The keys of the configuration object. */
  datatype Field = Nombre | Nif | Direccion | CodigoPostal | Ciudad | Telefono | Email | Logo

  /** The value stored under a key (`None` when the key is absent or undefined). */
  function Get(c: EmpresaConfig, k: Field): Option<string> {
    match k
    case Nombre => Some(c.nombre)
    case Nif => Some(c.nif)
    case Direccion => Some(c.direccion)
    case CodigoPostal => Some(c.codigoPostal)
    case Ciudad => Some(c.ciudad)
    case Telefono => Some(c.telefono)
    case Email => Some(c.email)
    case Logo => c.logo
  }

  /** What a patch carries under a key: `None` when the key is not in the patch. */
  function Carried(p: ConfigPatch, k: Field): Option<Option<string>> {
    match k
    case Nombre => if p.nombre.Some? then Some(Some(p.nombre.value)) else None
    case Nif => if p.nif.Some? then Some(Some(p.nif.value)) else None
    case Direccion => if p.direccion.Some? then Some(Some(p.direccion.value)) else None
    case CodigoPostal => if p.codigoPostal.Some? then Some(Some(p.codigoPostal.value)) else None
    case Ciudad => if p.ciudad.Some? then Some(Some(p.ciudad.value)) else None
    case Telefono => if p.telefono.Some? then Some(Some(p.telefono.value)) else None
    case Email => if p.email.Some? then Some(Some(p.email.value)) else None
    case Logo => p.logo
  }

  /** A merge overrides exactly the keys the patch carries and keeps every other key. */
  lemma MergeOverridesExactly(c: EmpresaConfig, p: ConfigPatch, k: Field)
    ensures Get(Merge(c, p), k) == if Carried(p, k).Some? then Carried(p, k).value else Get(c, k)
  {
  }

  /** Two configurations that agree on every key are equal. */
  lemma FieldsDetermineConfig(c: EmpresaConfig, d: EmpresaConfig)
    requires forall k :: Get(c, k) == Get(d, k)
    ensures c == d
  {
    assert Get(c, Nombre) == Get(d, Nombre) && Get(c, Nif) == Get(d, Nif);
    assert Get(c, Direccion) == Get(d, Direccion) && Get(c, CodigoPostal) == Get(d, CodigoPostal);
    assert Get(c, Ciudad) == Get(d, Ciudad) && Get(c, Telefono) == Get(d, Telefono);
    assert Get(c, Email) == Get(d, Email) && Get(c, Logo) == Get(d, Logo);
  }

  /**
   * The key-by-key rule of `MergeOverridesExactly` fixes the merged
   * configuration: any configuration that obeys it is the merge.
   */
  lemma OverrideRuleDeterminesMerge(c: EmpresaConfig, p: ConfigPatch, d: EmpresaConfig)
    requires forall k :: Get(d, k) == if Carried(p, k).Some? then Carried(p, k).value else Get(c, k)
    ensures d == Merge(c, p)
  {
    forall k
      ensures Get(d, k) == Get(Merge(c, p), k)
    {
      MergeOverridesExactly(c, p, k);
    }
    FieldsDetermineConfig(d, Merge(c, p));
  }

  /** `updateConfig({})` changes nothing, and applying a patch twice is applying it once. */
  lemma MergeEmptyAndIdempotent(c: EmpresaConfig, p: ConfigPatch)
    ensures Merge(c, EmptyPatch) == c
    ensures Merge(Merge(c, p), p) == Merge(c, p)
  {
  }

  /** The patch `{ logo }`. */
  function LogoPatch(logo: string): ConfigPatch {
    EmptyPatch.(logo := Some(Some(logo)))
  }

  /** `setLogo(l)` is `updateConfig({ logo: l })`: it sets the logo and keeps every other key. */
  lemma SetLogoIsUpdate(c: EmpresaConfig, logo: string)
    ensures Merge(c, LogoPatch(logo)) == c.(logo := Some(logo))
    ensures forall k :: k != Logo ==> Get(Merge(c, LogoPatch(logo)), k) == Get(c, k)
  {
  }

  class Store {
    var config: EmpresaConfig

    /** The store starts from `defaultConfig`, which carries no logo. */
    constructor ()
      ensures config == DefaultConfig && config.logo == None
    {
      config := DefaultConfig;
    }

    /** `updateConfig(patch)`. */
    method UpdateConfig(patch: ConfigPatch)
      modifies this
      ensures config == Merge(old(config), patch)
    {
      config := Merge(config, patch);
    }

    /** `setLogo(logo)`: only the logo changes. */
    method SetLogo(logo: string)
      modifies this
      ensures config == old(config).(logo := Some(logo))
      ensures config == Merge(old(config), LogoPatch(logo))
    {
      config := config.(logo := Some(logo));
    }
  }
}
