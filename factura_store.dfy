/**
 * The invoice store: an ordered list of invoices with add, merge-update,
 * delete, and the two payment actions `marcarComoPagada` and
 * `marcarComoPendiente`.
 *
 * `Factura` carries every key the invoice pages write (the counterparty
 * snapshot, the stored lines, subtotal and VAT), not only those the store's
 * interface lists.
 */
module FacturaStore {
  import opened Wrappers
  import opened Sequences

  datatype Tipo = Compra | Venta

  datatype Estado = Pagada | Pendiente | Vencida

  /** An attached document: file name, object URL and media type. */
  datatype Archivo = Archivo(nombre: string, url: string, tipo: string)

  /** A stored invoice line, with its computed total. */
  datatype Linea = Linea(descripcion: string, cantidad: real, precioUnitario: real, total: real)

  datatype Factura = Factura(
    id: string,
    tipo: Tipo,
    numero: string,
    fecha: string,
    fechaVencimiento: string,
    cliente: string,
    nifCliente: string,
    direccionCliente: string,
    ciudadCliente: string,
    cpCliente: string,
    emailCliente: string,
    telefonoCliente: string,
    items: seq<Linea>,
    subtotal: real,
    iva: real,
    total: real,
    estado: Estado,
    fechaPago: Option<string>,
    archivo: Option<Archivo>)

  /**
   * `Partial<Factura>`. For the optional keys, `Some(None)` is a patch that
   * carries the key with value `undefined`, which makes the field absent.
   */
  datatype FacturaPatch = FacturaPatch(
    id: Option<string>,
    tipo: Option<Tipo>,
    numero: Option<string>,
    fecha: Option<string>,
    fechaVencimiento: Option<string>,
    cliente: Option<string>,
    nifCliente: Option<string>,
    direccionCliente: Option<string>,
    ciudadCliente: Option<string>,
    cpCliente: Option<string>,
    emailCliente: Option<string>,
    telefonoCliente: Option<string>,
    items: Option<seq<Linea>>,
    subtotal: Option<real>,
    iva: Option<real>,
    total: Option<real>,
    estado: Option<Estado>,
    fechaPago: Option<Option<string>>,
    archivo: Option<Option<Archivo>>)

  /** The empty partial `{}`. */
  const EmptyPatch := FacturaPatch(None, None, None, None, None, None, None, None, None, None,
                                   None, None, None, None, None, None, None, None, None)

  /** `{ ...f, ...patch }`. */
  function Merge(f: Factura, p: FacturaPatch): Factura {
    f.(id := p.id.GetOr(f.id),
       tipo := p.tipo.GetOr(f.tipo),
       numero := p.numero.GetOr(f.numero),
       fecha := p.fecha.GetOr(f.fecha),
       fechaVencimiento := p.fechaVencimiento.GetOr(f.fechaVencimiento),
       cliente := p.cliente.GetOr(f.cliente),
       nifCliente := p.nifCliente.GetOr(f.nifCliente),
       direccionCliente := p.direccionCliente.GetOr(f.direccionCliente),
       ciudadCliente := p.ciudadCliente.GetOr(f.ciudadCliente),
       cpCliente := p.cpCliente.GetOr(f.cpCliente),
       emailCliente := p.emailCliente.GetOr(f.emailCliente),
       telefonoCliente := p.telefonoCliente.GetOr(f.telefonoCliente),
       items := p.items.GetOr(f.items),
       subtotal := p.subtotal.GetOr(f.subtotal),
       iva := p.iva.GetOr(f.iva),
       total := p.total.GetOr(f.total),
       estado := p.estado.GetOr(f.estado),
       fechaPago := p.fechaPago.GetOr(f.fechaPago),
       archivo := p.archivo.GetOr(f.archivo))
  }

  /** The spread `{ estado: 'pagada', fechaPago }` of `marcarComoPagada`. */
  function PagadaPatch(fechaPago: string): FacturaPatch {
    EmptyPatch.(estado := Some(Pagada), fechaPago := Some(Some(fechaPago)))
  }

  /** The spread `{ estado: 'pendiente', fechaPago: undefined }` of `marcarComoPendiente`. */
  const PendientePatch := EmptyPatch.(estado := Some(Pendiente), fechaPago := Some(None))

  /** `fs.map(f => f.id === id ? { ...f, ...patch } : f)`. */
  function Update(fs: seq<Factura>, id: string, patch: FacturaPatch): (r: seq<Factura>)
    ensures |r| == |fs|
    ensures forall i :: 0 <= i < |fs| ==> r[i] == if fs[i].id == id then Merge(fs[i], patch) else fs[i]
  {
    MapWhere(fs, (f: Factura) => f.id == id, (f: Factura) => Merge(f, patch))
  }

  /** `fs.filter(f => f.id !== id)`: the invoices with another id, in their original order. */
  function Delete(fs: seq<Factura>, id: string): (r: seq<Factura>)
    ensures IsSubsequence(r, fs)
    ensures forall f :: f in r ==> f.id != id
    ensures forall f :: multiset(r)[f] == if f.id != id then multiset(fs)[f] else 0
  {
    var keep := (f: Factura) => f.id != id;
    FilterSpec(fs, keep);
    Filter(fs, keep)
  }

  /** Status and payment date agree: an invoice is paid exactly when it has a payment date. */
  predicate PagoCoherente(f: Factura) {
    f.estado == Pagada <==> f.fechaPago.Some?
  }

  /** Update, delete and both payment actions on an unknown id leave the list unchanged. */
  lemma UnknownIdIsNoOp(fs: seq<Factura>, id: string, patch: FacturaPatch)
    requires forall f :: f in fs ==> f.id != id
    ensures Update(fs, id, patch) == fs
    ensures Delete(fs, id) == fs
  {
    MapWhereNoneSelected(fs, (f: Factura) => f.id == id, (f: Factura) => Merge(f, patch));
    FilterKeepsAll(fs, (f: Factura) => f.id != id);
  }

  /**
   * `marcarComoPagada(id, d)` sets `estado` and `fechaPago` on the matching
   * invoices and changes no other field and no other invoice.
   */
  lemma MarcarComoPagadaEffect(fs: seq<Factura>, id: string, fechaPago: string)
    ensures var r := Update(fs, id, PagadaPatch(fechaPago));
      |r| == |fs| &&
      forall i :: 0 <= i < |fs| ==>
        r[i] == if fs[i].id == id then fs[i].(estado := Pagada, fechaPago := Some(fechaPago)) else fs[i]
  {
  }

  /**
   * `marcarComoPendiente(id)` sets `estado` to pending and removes
   * `fechaPago` on the matching invoices, and changes nothing else.
   */
  lemma MarcarComoPendienteEffect(fs: seq<Factura>, id: string)
    ensures var r := Update(fs, id, PendientePatch);
      |r| == |fs| &&
      forall i :: 0 <= i < |fs| ==>
        r[i] == if fs[i].id == id then fs[i].(estado := Pendiente, fechaPago := None) else fs[i]
  {
  }

  /**
   * Marking paid and then pending is the same as marking pending: matching
   * invoices end pending with no payment date, every other field as before.
   */
  lemma PagarYCancelar(fs: seq<Factura>, id: string, fechaPago: string)
    ensures Update(Update(fs, id, PagadaPatch(fechaPago)), id, PendientePatch) == Update(fs, id, PendientePatch)
  {
    var r := Update(Update(fs, id, PagadaPatch(fechaPago)), id, PendientePatch);
    var q := Update(fs, id, PendientePatch);
    forall i | 0 <= i < |fs|
      ensures r[i] == q[i]
    {
    }
  }

  /** The payment actions keep every invoice's status consistent with its payment date. */
  lemma PaymentActionsKeepCoherence(fs: seq<Factura>, id: string, fechaPago: string)
    requires forall f :: f in fs ==> PagoCoherente(f)
    ensures forall f :: f in Update(fs, id, PagadaPatch(fechaPago)) ==> PagoCoherente(f)
    ensures forall f :: f in Update(fs, id, PendientePatch) ==> PagoCoherente(f)
  {
    var p := Update(fs, id, PagadaPatch(fechaPago));
    var q := Update(fs, id, PendientePatch);
    forall f | f in p
      ensures PagoCoherente(f)
    {
      var i :| 0 <= i < |p| && p[i] == f;
      assert fs[i] in fs;
    }
    forall f | f in q
      ensures PagoCoherente(f)
    {
      var i :| 0 <= i < |q| && q[i] == f;
      assert fs[i] in fs;
    }
  }

  /**
   * No store action produces an overdue invoice by itself: after deleting
   * or a payment action, every overdue invoice was already in the list.
   */
  lemma NoActionProducesVencida(fs: seq<Factura>, id: string, fechaPago: string)
    ensures forall f :: f in Delete(fs, id) && f.estado == Vencida ==> f in fs
    ensures forall f :: f in Update(fs, id, PagadaPatch(fechaPago)) && f.estado == Vencida ==> f in fs
    ensures forall f :: f in Update(fs, id, PendientePatch) && f.estado == Vencida ==> f in fs
  {
    var d := Delete(fs, id);
    forall f | f in d
      ensures f in fs
    {
      assert multiset(d)[f] > 0;
    }
    var p := Update(fs, id, PagadaPatch(fechaPago));
    forall f | f in p && f.estado == Vencida
      ensures f in fs
    {
      var i :| 0 <= i < |p| && p[i] == f;
      assert fs[i] in fs;
    }
    var q := Update(fs, id, PendientePatch);
    forall f | f in q && f.estado == Vencida
      ensures f in fs
    {
      var i :| 0 <= i < |q| && q[i] == f;
      assert fs[i] in fs;
    }
  }

  class Store {
    var facturas: seq<Factura>

    /** The store starts with no invoices. */
    constructor ()
      ensures facturas == []
    {
      facturas := [];
    }

    /** `addFactura`: append at the end. */
    method AddFactura(factura: Factura)
      modifies this
      ensures facturas == old(facturas) + [factura]
      ensures |facturas| == |old(facturas)| + 1 && facturas[..|old(facturas)|] == old(facturas)
    {
      facturas := facturas + [factura];
    }

    /** `updateFactura`: merge the partial into every invoice with that id. */
    method UpdateFactura(id: string, factura: FacturaPatch)
      modifies this
      ensures facturas == Update(old(facturas), id, factura)
    {
      facturas := Update(facturas, id, factura);
    }

    /** `deleteFactura`: drop every invoice with that id. */
    method DeleteFactura(id: string)
      modifies this
      ensures facturas == Delete(old(facturas), id)
    {
      facturas := Delete(facturas, id);
    }

    /** `marcarComoPagada`. */
    method MarcarComoPagada(id: string, fechaPago: string)
      modifies this
      ensures facturas == Update(old(facturas), id, PagadaPatch(fechaPago))
    {
      facturas := Update(facturas, id, PagadaPatch(fechaPago));
    }

    /** `marcarComoPendiente`. */
    method MarcarComoPendiente(id: string)
      modifies this
      ensures facturas == Update(old(facturas), id, PendientePatch)
    {
      facturas := Update(facturas, id, PendientePatch);
    }
  }
}
