/** The "new purchase invoice" page: builds a `compra` invoice, with an optional attachment, and adds it. */
module NuevaFacturaCompra {
  import opened Wrappers
  import opened FacturaStore
  import opened InvoiceForm

  /** The file picked in the upload widget (its name and media type). */
  datatype SelectedFile = SelectedFile(name: string, mediaType: string)

  /**
   * The `archivo` descriptor: present exactly when a file was selected, and
   * then holding its name, the object URL made for it and its media type.
   */
  function ArchivoDe(selected: Option<SelectedFile>, url: string): (a: Option<Archivo>)
    ensures a.Some? <==> selected.Some?
    ensures a.Some? ==> a.value == Archivo(selected.value.name, url, selected.value.mediaType)
  {
    match selected
    case None => None
    case Some(file) => Some(Archivo(file.name, url, file.mediaType))
  }

  /** The purchase invoice `onSubmit` builds. */
  function NuevaFacturaCompra(id: string, data: FacturaForm, selected: Option<SelectedFile>, url: string): (f: Factura)
    ensures f.tipo == Compra && f.estado == Pendiente && f.fechaPago == None
    ensures Contraparte(f) == data.party
    ensures f.archivo.Some? <==> selected.Some?
    ensures f.archivo.Some? ==> f.archivo.value.nombre == selected.value.name && f.archivo.value.tipo == selected.value.mediaType
    ensures |f.items| == |data.items| && ImportesCoherentes(f)
  {
    NuevaFactura(Compra, id, data, ArchivoDe(selected, url))
  }

  /**
   * `onSubmit`: exactly one `addFactura` with the built invoice. The id and
   * the object URL come from the browser and are parameters here.
   */
  method OnSubmit(store: Store, id: string, data: FacturaForm, selected: Option<SelectedFile>, url: string)
    modifies store
    ensures store.facturas == old(store.facturas) + [NuevaFacturaCompra(id, data, selected, url)]
  {
    store.AddFactura(NuevaFacturaCompra(id, data, selected, url));
  }
}
