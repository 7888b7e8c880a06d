/** The proveedor store: an ordered list of proveedores, seeded with two example records. */
module ProveedorStore {
  import opened Parties

  type Proveedor = Party

  /** The seeded `proveedoresIniciales`. */
  function ProveedoresIniciales(): seq<Proveedor> {
    [ Party("1", "Proveedor ABC S.L.", "B12345678", "contacto@proveedorabc.com", "912345678",
            "Calle Principal 123", "Madrid", "28001"),
      Party("2", "Proveedor XYZ S.A.", "A87654321", "info@proveedorxyz.com", "934567890",
            "Avenida Central 456", "Barcelona", "08001") ]
  }

  /** The seed holds exactly two records, with ids "1" and "2" in that order. */
  lemma ProveedoresInicialesIds()
    ensures |ProveedoresIniciales()| == 2
    ensures ProveedoresIniciales()[0].id == "1" && ProveedoresIniciales()[1].id == "2"
  {
  }

  class Store {
    var proveedores: seq<Proveedor>

    /** The store starts from the seed. */
    constructor ()
      ensures proveedores == ProveedoresIniciales()
    {
      proveedores := ProveedoresIniciales();
    }

    /** `addProveedor`: append at the end. */
    method AddProveedor(proveedor: Proveedor)
      modifies this
      ensures proveedores == old(proveedores) + [proveedor]
      ensures |proveedores| == |old(proveedores)| + 1 && proveedores[..|old(proveedores)|] == old(proveedores)
    {
      proveedores := proveedores + [proveedor];
    }

    /** `updateProveedor`: merge the partial into every record with that id. */
    method UpdateProveedor(id: string, proveedor: PartyPatch)
      modifies this
      ensures proveedores == Update(old(proveedores), id, proveedor)
    {
      proveedores := Update(proveedores, id, proveedor);
    }

    /** `deleteProveedor`: drop every record with that id. */
    method DeleteProveedor(id: string)
      modifies this
      ensures proveedores == Delete(old(proveedores), id)
    {
      proveedores := Delete(proveedores, id);
    }
  }
}
