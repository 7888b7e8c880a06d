/**
 * The computation the purchase and sales "new invoice" pages share, line for
 * line: the running subtotal `reduce`, VAT at 21 %, the stored lines
 * (`itemsConTotales`) and the `nuevaFactura` record handed to `addFactura`.
 * Amounts are exact `real`s; `x || 0` on a form number is `OrZero`.
 */
module InvoiceForm {
  import opened Wrappers
  import opened FacturaStore

  /** One editable line of the form; a number field may be left empty. */
  datatype Item = Item(descripcion: string, cantidad: Option<real>, precioUnitario: Option<real>)

  /** The counterparty block of the form (`proveedor` or `cliente`). */
  datatype PartyForm = PartyForm(
    nombre: string,
    direccion: string,
    ciudad: string,
    codigoPostal: string,
    nif: string,
    email: string,
    telefono: string)

  datatype FacturaForm = FacturaForm(
    numero: string,
    fecha: string,
    fechaVencimiento: string,
    party: PartyForm,
    items: seq<Item>)

  datatype Totales = Totales(subtotal: real, iva: real, total: real)

  /** The VAT rate. */
  const IvaRate: real := 0.21

  /** `x || 0`. */
  function OrZero(x: Option<real>): real {
    x.GetOr(0.0)
  }

  /** A line's contribution, `(cantidad || 0) * (precioUnitario || 0)`. */
  function Importe(item: Item): real {
    OrZero(item.cantidad) * OrZero(item.precioUnitario)
  }

  /** `items.reduce((sum, item) => sum + Importe(item), 0)`, folded from the left. */
  function Subtotal(items: seq<Item>): real {
    if items == [] then 0.0 else Subtotal(items[..|items| - 1]) + Importe(items[|items| - 1])
  }

  /** The three amounts shown under the lines and stored in the invoice. */
  function ComputeTotales(items: seq<Item>): (t: Totales)
    ensures t.subtotal == Subtotal(items)
    ensures t.total == t.subtotal * 1.21
    ensures t.total - t.iva == t.subtotal
  {
    var subtotal := Subtotal(items);
    var iva := subtotal * IvaRate;
    Totales(subtotal, iva, subtotal + iva)
  }

  /** The subtotal of two blocks of lines is the sum of their subtotals. */
  lemma {:induction false} SubtotalAppend(a: seq<Item>, b: seq<Item>)
    ensures Subtotal(a + b) == Subtotal(a) + Subtotal(b)
  {
    if b == [] {
      assert a + b == a;
    } else {
      var b' := b[..|b| - 1];
      assert (a + b)[..|a + b| - 1] == a + b';
      assert (a + b)[|a + b| - 1] == b[|b| - 1];
      SubtotalAppend(a, b');
    }
  }

  /** A line with a missing or zero factor contributes nothing to the subtotal. */
  lemma EmptyLineAddsNothing(a: seq<Item>, z: Item, b: seq<Item>)
    requires OrZero(z.cantidad) == 0.0 || OrZero(z.precioUnitario) == 0.0
    ensures Subtotal(a + [z] + b) == Subtotal(a + b)
  {
    SubtotalAppend(a + [z], b);
    SubtotalAppend(a, [z]);
    SubtotalAppend(a, b);
    assert [z][..0] == [];
  }

  /** One stored line: factors defaulted to 0 and the line total computed. */
  function LineaDe(item: Item): Linea {
    Linea(item.descripcion, OrZero(item.cantidad), OrZero(item.precioUnitario), Importe(item))
  }

  /** `itemsConTotales`: one stored line per form line, in the same order. */
  function ItemsConTotales(items: seq<Item>): (r: seq<Linea>)
    ensures |r| == |items|
    ensures forall i :: 0 <= i < |items| ==>
      r[i].descripcion == items[i].descripcion &&
      r[i].cantidad == OrZero(items[i].cantidad) &&
      r[i].precioUnitario == OrZero(items[i].precioUnitario)
    ensures forall i :: 0 <= i < |items| ==> r[i].total == r[i].cantidad * r[i].precioUnitario
  {
    seq(|items|, i requires 0 <= i < |items| => LineaDe(items[i]))
  }

  /** The sum of the stored line totals. */
  function SumaLineas(lineas: seq<Linea>): real {
    if lineas == [] then 0.0 else SumaLineas(lineas[..|lineas| - 1]) + lineas[|lineas| - 1].total
  }

  /** The stored line totals add up to the subtotal computed from the form. */
  lemma {:induction false} SumaItemsConTotales(items: seq<Item>)
    ensures SumaLineas(ItemsConTotales(items)) == Subtotal(items)
  {
    if items != [] {
      var init := items[..|items| - 1];
      assert ItemsConTotales(items)[..|items| - 1] == ItemsConTotales(init);
      SumaItemsConTotales(init);
    }
  }

  /**
   * The amounts of an invoice agree with its lines: each line total is its
   * product, the subtotal is their sum, VAT is 21 % of it, and the total
   * adds the two.
   */
  ghost predicate ImportesCoherentes(f: Factura) {
    (forall i :: 0 <= i < |f.items| ==> f.items[i].total == f.items[i].cantidad * f.items[i].precioUnitario)
    && SumaLineas(f.items) == f.subtotal
    && f.iva == f.subtotal * IvaRate
    && f.total == f.subtotal + f.iva
  }

  /** The counterparty snapshot an invoice carries, read back in the form's shape. */
  function Contraparte(f: Factura): PartyForm {
    PartyForm(f.cliente, f.direccionCliente, f.ciudadCliente, f.cpCliente,
              f.nifCliente, f.emailCliente, f.telefonoCliente)
  }

  /** `nuevaFactura`: the record both pages build from the form, with a fixed `tipo`. */
  function NuevaFactura(tipo: Tipo, id: string, data: FacturaForm, archivo: Option<Archivo>): (f: Factura)
    ensures f.id == id && f.tipo == tipo
    ensures f.numero == data.numero && f.fecha == data.fecha && f.fechaVencimiento == data.fechaVencimiento
    ensures Contraparte(f) == data.party
    ensures f.estado == Pendiente && f.fechaPago == None && PagoCoherente(f)
    ensures f.archivo == archivo
    ensures f.items == ItemsConTotales(data.items)
    ensures ImportesCoherentes(f)
    ensures f.subtotal == Subtotal(data.items) && f.total == f.subtotal * 1.21
  {
    var t := ComputeTotales(data.items);
    SumaItemsConTotales(data.items);
    Factura(
      id, tipo, data.numero, data.fecha, data.fechaVencimiento,
      data.party.nombre, data.party.nif, data.party.direccion, data.party.ciudad,
      data.party.codigoPostal, data.party.email, data.party.telefono,
      ItemsConTotales(data.items), t.subtotal, t.iva, t.total,
      Pendiente, None, archivo)
  }

  /** The form's default lines: one empty line with quantity 1 and price 0. */
  const DefaultItems := [Item("", Some(1.0), Some(0.0))]

  /** The untouched form shows zero subtotal, VAT and total. */
  lemma DefaultFormTotalsZero()
    ensures ComputeTotales(DefaultItems) == Totales(0.0, 0.0, 0.0)
  {
    assert DefaultItems[..0] == [];
  }

  /** Lines 2 x 10 and 1 x 5 give subtotal 25, VAT 5.25 and total 30.25. */
  lemma WidgetGadgetExample()
    ensures ComputeTotales([Item("Widget", Some(2.0), Some(10.0)), Item("Gadget", Some(1.0), Some(5.0))])
         == Totales(25.0, 5.25, 30.25)
  {
    var items := [Item("Widget", Some(2.0), Some(10.0)), Item("Gadget", Some(1.0), Some(5.0))];
    assert items[..1][..0] == [];
    assert Subtotal(items[..1]) == 20.0;
  }
}
