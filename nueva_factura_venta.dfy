/** The "new sales invoice" page: builds a `venta` invoice, with no attachment, and adds it. */
module NuevaFacturaVenta {
  import opened Wrappers
  import opened FacturaStore
  import opened InvoiceForm

  /** The sales invoice `onSubmit` builds. */
  function NuevaFacturaVenta(id: string, data: FacturaForm): (f: Factura)
    ensures f.tipo == Venta && f.estado == Pendiente && f.fechaPago == None && f.archivo == None
    ensures Contraparte(f) == data.party
    ensures |f.items| == |data.items| && ImportesCoherentes(f)
  {
    NuevaFactura(Venta, id, data, None)
  }

  /** `onSubmit`: exactly one `addFactura` with the built invoice; the id is a parameter. */
  method OnSubmit(store: Store, id: string, data: FacturaForm)
    modifies store
    ensures store.facturas == old(store.facturas) + [NuevaFacturaVenta(id, data)]
  {
    store.AddFactura(NuevaFacturaVenta(id, data));
  }
}
