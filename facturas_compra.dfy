/**
 * The purchase-invoice list page: the `tipo` filter, the free-text search,
 * which payment action each row offers, and the handlers that change the
 * invoice store (remove attachment, delete, confirm payment, cancel payment).
 */
module FacturasCompra {
  import opened Wrappers
  import opened Text
  import opened Sequences
  import opened FacturaStore

  /** The purchase invoices, `facturas.filter(f => f.tipo === 'compra')`. */
  function Compras(fs: seq<Factura>): (r: seq<Factura>)
    ensures IsSubsequence(r, fs)
    ensures forall f :: f in r <==> f in fs && f.tipo == Compra
    ensures forall f :: multiset(r)[f] == if f.tipo == Compra then multiset(fs)[f] else 0
  {
    var keep := (f: Factura) => f.tipo == Compra;
    FilterSpec(fs, keep);
    var r := Filter(fs, keep);
    assert forall f :: f in r <==> multiset(r)[f] > 0;
    r
  }

  function TipoString(t: Tipo): string {
    match t
    case Compra => "compra"
    case Venta => "venta"
  }

  function EstadoString(e: Estado): string {
    match e
    case Pagada => "pagada"
    case Pendiente => "pendiente"
    case Vencida => "vencida"
  }

  /** The string-valued entries of `Object.values(factura)`; `fechaPago` only when present. */
  function Campos(f: Factura): (vs: seq<string>)
    ensures |vs| > 0 && vs[0] == f.id
  {
    [f.id, TipoString(f.tipo), f.numero, f.fecha, f.fechaVencimiento, f.cliente,
     f.nifCliente, f.direccionCliente, f.ciudadCliente, f.cpCliente, f.emailCliente,
     f.telefonoCliente, EstadoString(f.estado)]
    + (match f.fechaPago case Some(d) => [d] case None => [])
  }

  /** Some value, lowered, contains the lowered search term. */
  predicate Coincide(f: Factura, term: string) {
    exists v | v in Campos(f) :: Contains(Lower(v), Lower(term))
  }

  /** `filteredFacturas`: the purchase invoices that match the search term, in store order. */
  function Buscar(fs: seq<Factura>, term: string): (r: seq<Factura>)
    ensures IsSubsequence(r, Compras(fs))
    ensures forall f :: f in r <==> f in fs && f.tipo == Compra && Coincide(f, term)
    ensures forall f :: multiset(r)[f] == if Coincide(f, term) then multiset(Compras(fs))[f] else 0
  {
    var keep := (f: Factura) => Coincide(f, term);
    FilterSpec(Compras(fs), keep);
    Filter(Compras(fs), keep)
  }

  /** The search result is also an order-preserving selection of the whole store. */
  lemma BuscarIsSubsequenceOfStore(fs: seq<Factura>, term: string)
    ensures IsSubsequence(Buscar(fs, term), fs)
  {
    var both := (f: Factura) => f.tipo == Compra && Coincide(f, term);
    FilterFilter(fs, (f: Factura) => f.tipo == Compra, (f: Factura) => Coincide(f, term), both);
    FilterSpec(fs, both);
  }

  /** Terms that differ only in letter case find the same invoices. */
  lemma BuscarCaseInsensitive(fs: seq<Factura>, t1: string, t2: string)
    requires Lower(t1) == Lower(t2)
    ensures Buscar(fs, t1) == Buscar(fs, t2)
  {
    FilterCongruent(Compras(fs), (f: Factura) => Coincide(f, t1), (f: Factura) => Coincide(f, t2));
  }

  /** An empty search term keeps every purchase invoice: each has an `id` string, and every string contains "". */
  lemma BuscarEmptyKeepsAll(fs: seq<Factura>)
    ensures Buscar(fs, "") == Compras(fs)
  {
    forall f: Factura
      ensures Coincide(f, "")
    {
      ContainsEmpty(Lower(f.id));
      assert Lower("") == "";
      assert f.id in Campos(f);
    }
    FilterKeepsAll(Compras(fs), (f: Factura) => Coincide(f, ""));
  }

  /** The payment button a row offers. */
  datatype Accion = MarcarPagada | CancelarPago

  /** "Mark paid" only on pending invoices, "cancel payment" only on paid ones, nothing on overdue ones. */
  function AccionDePago(e: Estado): (a: Option<Accion>)
    ensures a == Some(MarcarPagada) <==> e == Pendiente
    ensures a == Some(CancelarPago) <==> e == Pagada
    ensures a.None? <==> e == Vencida
  {
    match e
    case Pendiente => Some(MarcarPagada)
    case Pagada => Some(CancelarPago)
    case Vencida => None
  }

  /** `fs.find(f => f.id === id)`: the first invoice with that id. */
  function Find(fs: seq<Factura>, id: string): (r: Option<Factura>)
    ensures r.None? <==> forall f :: f in fs ==> f.id != id
    ensures r.Some? ==> r.value in fs && r.value.id == id
    ensures r.Some? ==> exists k :: 0 <= k < |fs| && fs[k] == r.value && forall j :: 0 <= j < k ==> fs[j].id != id
  {
    if fs == [] then None
    else if fs[0].id == id then Some(fs[0])
    else Find(fs[1..], id)
  }

  /** A patch that carries every key of `f`, with `f`'s values. */
  function FullPatch(f: Factura): FacturaPatch {
    FacturaPatch(Some(f.id), Some(f.tipo), Some(f.numero), Some(f.fecha), Some(f.fechaVencimiento),
                 Some(f.cliente), Some(f.nifCliente), Some(f.direccionCliente), Some(f.ciudadCliente),
                 Some(f.cpCliente), Some(f.emailCliente), Some(f.telefonoCliente), Some(f.items),
                 Some(f.subtotal), Some(f.iva), Some(f.total), Some(f.estado), Some(f.fechaPago),
                 Some(f.archivo))
  }

  /**
   * The patch `handleDeleteArchivo` sends: `{ ...compras.find(f => f.id === id), archivo: undefined }`.
   * When no purchase invoice has the id, spreading `undefined` adds no keys.
   */
  function SinArchivoPatch(compras: seq<Factura>, id: string): FacturaPatch {
    match Find(compras, id)
    case Some(f) => FullPatch(f).(archivo := Some(None))
    case None => EmptyPatch.(archivo := Some(None))
  }

  /** At most one invoice carries `id`. */
  predicate IdUnico(fs: seq<Factura>, id: string) {
    forall i, j :: 0 <= i < |fs| && 0 <= j < |fs| && fs[i].id == id && fs[j].id == id ==> i == j
  }

  /**
   * When the id is unique in the store, removing the attachment makes
   * `archivo` absent on that invoice and changes no other field and no
   * other invoice.
   */
  lemma DeleteArchivoClearsOnlyArchivo(fs: seq<Factura>, id: string)
    requires IdUnico(fs, id)
    ensures var r := Update(fs, id, SinArchivoPatch(Compras(fs), id));
      |r| == |fs| &&
      forall i :: 0 <= i < |fs| ==> r[i] == if fs[i].id == id then fs[i].(archivo := None) else fs[i]
  {
    var r := Update(fs, id, SinArchivoPatch(Compras(fs), id));
    forall i | 0 <= i < |fs| && fs[i].id == id
      ensures r[i] == fs[i].(archivo := None)
    {
      var found := Find(Compras(fs), id);
      if found.Some? {
        var g := found.value;
        assert g in fs;
        var k :| 0 <= k < |fs| && fs[k] == g;
        assert k == i;
      }
    }
  }

  /** The list page's own state: the search box and the invoice picked for a payment dialog. */
  class Page {
    const store: Store
    var searchTerm: string
    var selected: Option<Factura>

    constructor (store: Store)
      ensures this.store == store && searchTerm == "" && selected == None
    {
      this.store := store;
      searchTerm := "";
      selected := None;
    }

    /** Typing in the search box. */
    method SetSearchTerm(term: string)
      modifies this
      ensures searchTerm == term && selected == old(selected)
    {
      searchTerm := term;
    }

    /** `handlePago` / `handleCancelarPago`: remember the invoice whose dialog opens. */
    method Select(factura: Factura)
      modifies this
      ensures selected == Some(factura) && searchTerm == old(searchTerm)
    {
      selected := Some(factura);
    }

    /** `handleConfirmPago`: with a selection, mark it paid on that date and clear the selection. */
    method ConfirmPago(fechaPago: string)
      modifies this, store
      ensures old(selected).None? ==> store.facturas == old(store.facturas) && selected == None
      ensures old(selected).Some? ==>
        store.facturas == Update(old(store.facturas), old(selected).value.id, PagadaPatch(fechaPago))
        && selected == None
      ensures searchTerm == old(searchTerm)
    {
      if selected.Some? {
        store.MarcarComoPagada(selected.value.id, fechaPago);
        selected := None;
      }
    }

    /** `handleConfirmCancelarPago`: with a selection, mark it pending and clear the selection. */
    method ConfirmCancelarPago()
      modifies this, store
      ensures old(selected).None? ==> store.facturas == old(store.facturas) && selected == None
      ensures old(selected).Some? ==>
        store.facturas == Update(old(store.facturas), old(selected).value.id, PendientePatch)
        && selected == None
      ensures searchTerm == old(searchTerm)
    {
      if selected.Some? {
        store.MarcarComoPendiente(selected.value.id);
        selected := None;
      }
    }

    /** `handleDeleteArchivo`: once confirmed, merge-update the invoice with `archivo: undefined`. */
    method DeleteArchivo(facturaId: string, confirmed: bool)
      modifies store
      ensures !confirmed ==> store.facturas == old(store.facturas)
      ensures confirmed ==>
        store.facturas == Update(old(store.facturas), facturaId, SinArchivoPatch(Compras(old(store.facturas)), facturaId))
    {
      if confirmed {
        store.UpdateFactura(facturaId, SinArchivoPatch(Compras(store.facturas), facturaId));
      }
    }

    /** `handleDeleteFactura`: once confirmed, delete the invoice. */
    method DeleteFactura(facturaId: string, confirmed: bool)
      modifies store
      ensures !confirmed ==> store.facturas == old(store.facturas)
      ensures confirmed ==> store.facturas == Delete(old(store.facturas), facturaId)
    {
      if confirmed {
        store.DeleteFactura(facturaId);
      }
    }
  }
}
