/** The cliente store: an ordered list of clientes, seeded with two example records. */
module ClienteStore {
  import opened Parties

  type Cliente = Party

  /** The seeded `clientesIniciales`. */
  function ClientesIniciales(): seq<Cliente> {
    [ Party("1", "Empresa ABC S.L.", "B12345678", "contacto@empresaabc.com", "912345678",
            "Calle Principal 123", "Madrid", "28001"),
      Party("2", "Comercial XYZ S.A.", "A87654321", "info@comercialxyz.com", "934567890",
            "Avenida Central 456", "Barcelona", "08001") ]
  }

  /** The seed holds exactly two records, with ids "1" and "2" in that order. */
  lemma ClientesInicialesIds()
    ensures |ClientesIniciales()| == 2
    ensures ClientesIniciales()[0].id == "1" && ClientesIniciales()[1].id == "2"
  {
  }

  class Store {
    var clientes: seq<Cliente>

    /** The store starts from the seed. */
    constructor ()
      ensures clientes == ClientesIniciales()
    {
      clientes := ClientesIniciales();
    }

    /** `addCliente`: append at the end. */
    method AddCliente(cliente: Cliente)
      modifies this
      ensures clientes == old(clientes) + [cliente]
      ensures |clientes| == |old(clientes)| + 1 && clientes[..|old(clientes)|] == old(clientes)
    {
      clientes := clientes + [cliente];
    }

    /** `updateCliente`: merge the partial into every record with that id. */
    method UpdateCliente(id: string, cliente: PartyPatch)
      modifies this
      ensures clientes == Update(old(clientes), id, cliente)
    {
      clientes := Update(clientes, id, cliente);
    }

    /** `deleteCliente`: drop every record with that id. */
    method DeleteCliente(id: string)
      modifies this
      ensures clientes == Delete(old(clientes), id)
    {
      clientes := Delete(clientes, id);
    }
  }
}
