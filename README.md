# Facturación: a Dafny model of the invoicing stores and invoice pages

This project models the core of a small browser invoicing application. It
covers the four client-side stores (invoices, clients, suppliers, company
configuration) and the invoice logic inside the pages. That logic is the
totals and new-invoice record of the purchase and sales forms, the search
and payment actions of the purchase list, and the validation rules of the
client-edit form.

Layout, one module per source file plus shared helpers:

- `wrappers.dfy` (`Wrappers`): `Option`, used for JavaScript fields that may be absent or `undefined`.
- `sequences.dfy` (`Sequences`): `Filter` and `MapWhere`. These are the `filter` and conditional `map` every store action is built from, with lemmas about them.
- `text.dfy` (`Text`): ASCII `toLowerCase` and `includes`.
- `parties.dfy` (`Parties`): the record shared by the client and supplier stores. Both interfaces declare the same eight string fields. The module also holds the `Partial<…>` patch, the spread merge, and the update and delete functions.
- `cliente_store.dfy`, `proveedor_store.dfy`, `empresa_store.dfy`, `factura_store.dfy`: one class per store. Each class has the store's field (`seq` or a record) and one method per action. Each method's `ensures` gives the new state as a function of the old one.
- `invoice_form.dfy` (`InvoiceForm`): the computation both "new invoice" pages share line for line. That is the subtotal `reduce`, 21 % VAT, `itemsConTotales` and the `nuevaFactura` literal.
- `nueva_factura_compra.dfy`, `nueva_factura_venta.dfy`: the page-specific parts of the two forms: the fixed `tipo`, the optional attachment, and `onSubmit`.
- `facturas_compra.dfy` (`FacturasCompra`): the purchase list page. It holds the `tipo` filter, the search, which payment button each row offers, and a `Page` class for the page's selection state and handlers.
- `editar_cliente.dfy` (`EditarCliente`): the required-field rules and the email pattern. The pattern is a declarative predicate that follows the regular expression's structure. A one-pass checker is proved equivalent to it.

Modelling choices:

- Money and quantities are exact `real`s. `x || 0` on a form number is `OrZero`, which maps a missing value (`None`) to 0.
- A `Partial<T>` is a datatype with one `Option` per field, where `Some` means the patch carries that key. Optional fields (`fechaPago`, `archivo`, `logo`) get `Option<Option<…>>`. There `Some(None)` is a patch holding the key with value `undefined`, which makes the field absent after the spread. This is how `marcarComoPendiente` and attachment removal clear a field.
- `marcarComoPagada` and `marcarComoPendiente` are merge updates with fixed patches. This matches their source: a `map` that spreads `{ estado, fechaPago }` into matching records.
- `Factura` holds every key the invoice pages write: the counterparty snapshot, stored lines, subtotal and VAT. The store's interface lists only some of them.
- Values the browser supplies are parameters: the new id from `crypto.randomUUID()`, the object URL from `URL.createObjectURL`, and the answer to `window.confirm` (a `bool`).

## Behaviour worth noting

- An absent quantity counts as 0 in the totals (`cantidad || 0`). The 1 is only the form's initial value.
- VAT is not rounded. Only the display uses `toFixed(2)`.
- `update`, `delete` and both payment actions act on every record with the id, not on a single record.
- An `'vencida'` (overdue) status can be stored, but no action produces it unless its argument carries it. `addFactura` of an overdue invoice stores one, and so does `updateFactura` with `estado: 'vencida'`. Deleting and the two payment actions never do.

## Model

| member | source | states |
|---|---|---|
| `FacturaStore.Update` | src/stores/facturaStore.ts:38-43 | The result has the same length and order as the input. Each invoice with the id becomes the invoice merged with the patch, and every other invoice is unchanged. |
| `FacturaStore.Delete` | src/stores/facturaStore.ts:44-47 | The result is an order-preserving subsequence with no invoice carrying the id. Every invoice with another id appears exactly as often as before, so the result is exactly the other invoices, in order. |
| `FacturaStore.UnknownIdIsNoOp` | src/stores/facturaStore.ts:38-59 | When no invoice has the id, update, delete and both payment actions (updates with fixed patches) return the list unchanged. |
| `FacturaStore.MarcarComoPagadaEffect` | src/stores/facturaStore.ts:48-53 | Marking paid sets `estado` to pagada and `fechaPago` to the date on matching invoices. No other field and no other invoice changes, and the length is kept. |
| `FacturaStore.MarcarComoPendienteEffect` | src/stores/facturaStore.ts:54-59 | Marking pending sets `estado` to pendiente and makes `fechaPago` absent on matching invoices. Nothing else changes. |
| `FacturaStore.PagarYCancelar` | src/stores/facturaStore.ts:48-59 | Marking paid and then pending gives the same list as marking pending alone. Matching invoices end pending with no payment date, and all other fields are as before. |
| `FacturaStore.PaymentActionsKeepCoherence` | src/stores/facturaStore.ts:48-59 | If every invoice is paid exactly when it has a payment date, both payment actions keep that true. |
| `FacturaStore.NoActionProducesVencida` | src/stores/facturaStore.ts:44-59 | After a delete or either payment action, every overdue invoice in the result was already in the list. |
| `FacturaStore.Store.constructor` | src/stores/facturaStore.ts:33 | The invoice list starts empty. |
| `FacturaStore.Store.AddFactura` | src/stores/facturaStore.ts:34-37 | The new list is the old one with the invoice appended. The length grows by one and the old prefix is unchanged. |
| `FacturaStore.Store.UpdateFactura` | src/stores/facturaStore.ts:38-43 | The new list is `Update` of the old one. |
| `FacturaStore.Store.DeleteFactura` | src/stores/facturaStore.ts:44-47 | The new list is `Delete` of the old one. |
| `FacturaStore.Store.MarcarComoPagada` | src/stores/facturaStore.ts:48-53 | The new list is the old one updated with the `{ estado: 'pagada', fechaPago }` patch. |
| `FacturaStore.Store.MarcarComoPendiente` | src/stores/facturaStore.ts:54-59 | The new list is the old one updated with the `{ estado: 'pendiente', fechaPago: undefined }` patch. |
| `Parties.Update` | src/stores/clienteStore.ts:54-59 | The result has the same length and order. Records with the id are merged with the patch and all others are unchanged. |
| `Parties.Delete` | src/stores/clienteStore.ts:60-63 | The result is an order-preserving subsequence without the id, in which every record with another id keeps its multiplicity. |
| `Parties.MergeEmptyPatch` | src/stores/clienteStore.ts:56-58 | Merging the empty partial `{}` returns the record unchanged. |
| `Parties.UpdateEmptyPatch` | src/stores/proveedorStore.ts:54-59 | An update with the empty partial leaves the list unchanged. |
| `Parties.UnknownIdIsNoOp` | src/stores/proveedorStore.ts:54-63 | Update and delete on an id no record has leave the list unchanged. |
| `Parties.UpdateAfterDelete` | src/stores/proveedorStore.ts:54-63 | After deleting an id, an update of that id changes nothing. |
| `Parties.AddDeleteUpdate` | src/stores/clienteStore.ts:50-63 | Adding `x`, deleting `x.id` and then updating `x.id` returns the original list, provided no record had `x.id` before. |
| `ClienteStore.ClientesInicialesIds` | src/stores/clienteStore.ts:16-37 | The seed has exactly two clients, with ids "1" and "2" in that order. |
| `ClienteStore.Store.constructor` | src/stores/clienteStore.ts:49 | The client list starts as the seed. |
| `ClienteStore.Store.AddCliente` | src/stores/clienteStore.ts:50-53 | The client is appended. The length grows by one and the prefix is unchanged. |
| `ClienteStore.Store.UpdateCliente` | src/stores/clienteStore.ts:54-59 | The new list is `Parties.Update` of the old one. |
| `ClienteStore.Store.DeleteCliente` | src/stores/clienteStore.ts:60-63 | The new list is `Parties.Delete` of the old one. |
| `ProveedorStore.ProveedoresInicialesIds` | src/stores/proveedorStore.ts:16-37 | The seed has exactly two suppliers, with ids "1" and "2" in that order. |
| `ProveedorStore.Store.constructor` | src/stores/proveedorStore.ts:49 | The supplier list starts as the seed. |
| `ProveedorStore.Store.AddProveedor` | src/stores/proveedorStore.ts:50-53 | The supplier is appended. The length grows by one and the prefix is unchanged. |
| `ProveedorStore.Store.UpdateProveedor` | src/stores/proveedorStore.ts:54-59 | The new list is `Parties.Update` of the old one. |
| `ProveedorStore.Store.DeleteProveedor` | src/stores/proveedorStore.ts:60-63 | The new list is `Parties.Delete` of the old one. |
| `EmpresaStore.MergeOverridesExactly` | src/stores/empresaStore.ts:35-38 | After `updateConfig(p)`, each key `p` carries has `p`'s value and every other key keeps its old value. |
| `EmpresaStore.OverrideRuleDeterminesMerge` | src/stores/empresaStore.ts:35-38 | The key-by-key rule fixes the result: any configuration that has `p`'s value on each key `p` carries and the old value on every other key is the merged configuration. |
| `EmpresaStore.MergeEmptyAndIdempotent` | src/stores/empresaStore.ts:37 | `updateConfig({})` changes nothing, and applying the same partial twice equals applying it once. |
| `EmpresaStore.SetLogoIsUpdate` | src/stores/empresaStore.ts:37-42 | `setLogo(l)` equals `updateConfig({ logo: l })`. It sets the logo and keeps every other key. |
| `EmpresaStore.Store.constructor` | src/stores/empresaStore.ts:21-34 | The configuration starts as `defaultConfig`, which has no logo. |
| `EmpresaStore.Store.UpdateConfig` | src/stores/empresaStore.ts:35-38 | The new configuration is the old one merged with the partial. |
| `EmpresaStore.Store.SetLogo` | src/stores/empresaStore.ts:39-42 | Only the logo changes. The result equals the merge with the logo-only patch. |
| `InvoiceForm.ComputeTotales` | src/pages/compras/NuevaFacturaCompra.tsx:61-66 | The subtotal is the folded sum of the line amounts, and the total is 1.21 times the subtotal. The total minus the VAT is the subtotal. |
| `InvoiceForm.SubtotalAppend` | src/pages/ventas/NuevaFacturaVenta.tsx:58-61 | The subtotal of two blocks of lines is the sum of the blocks' subtotals. |
| `InvoiceForm.EmptyLineAddsNothing` | src/pages/compras/NuevaFacturaCompra.tsx:61-64 | A line with a missing or zero factor does not change the subtotal, wherever it sits. |
| `InvoiceForm.ItemsConTotales` | src/pages/compras/NuevaFacturaCompra.tsx:83-88 | There is one stored line per form line, in order. Each keeps its description, has its factors defaulted to 0, and has total = quantity × unit price. |
| `InvoiceForm.SumaItemsConTotales` | src/pages/ventas/NuevaFacturaVenta.tsx:80-85 | The stored line totals add up to the subtotal computed from the form. |
| `InvoiceForm.NuevaFactura` | src/pages/ventas/NuevaFacturaVenta.tsx:87-105 | The built invoice has the given id and `tipo`. It copies numero and the dates from the form, and reading its counterparty snapshot back gives the form's party block. It is pending with no payment date (so status and payment date agree). Its attachment is the one passed in, its lines are `itemsConTotales`, and its amounts agree with its lines: subtotal = sum, VAT = 21 %, total = subtotal + VAT. |
| `InvoiceForm.DefaultFormTotalsZero` | src/pages/compras/NuevaFacturaCompra.tsx:51-66 | The default single line (quantity 1, price 0) gives subtotal, VAT and total of 0. |
| `InvoiceForm.WidgetGadgetExample` | src/pages/compras/NuevaFacturaCompra.tsx:61-66 | Lines 2 × 10 and 1 × 5 give 25, 5.25 and 30.25. |
| `NuevaFacturaCompra.ArchivoDe` | src/pages/compras/NuevaFacturaCompra.tsx:90-97 | The attachment is present exactly when a file was selected. It then holds that file's name and media type and the object URL. |
| `NuevaFacturaCompra.NuevaFacturaCompra` | src/pages/compras/NuevaFacturaCompra.tsx:99-118 | The purchase invoice is a `compra`, pending, with no payment date. Its counterparty snapshot is the `proveedor` block and it has as many lines as the form. Its amounts agree with its lines, and it has an attachment exactly when a file was selected. |
| `NuevaFacturaCompra.OnSubmit` | src/pages/compras/NuevaFacturaCompra.tsx:78-120 | The store ends with exactly the built purchase invoice appended. |
| `NuevaFacturaVenta.NuevaFacturaVenta` | src/pages/ventas/NuevaFacturaVenta.tsx:87-105 | The sales invoice is a `venta`, pending, with no payment date and no attachment. Its counterparty snapshot is the `cliente` block, it has as many lines as the form, and its amounts agree with its lines. |
| `NuevaFacturaVenta.OnSubmit` | src/pages/ventas/NuevaFacturaVenta.tsx:75-107 | The store ends with exactly the built sales invoice appended. |
| `FacturasCompra.Compras` | src/pages/compras/FacturasCompra.tsx:15-16 | The list shows an order-preserving subsequence of the store that holds exactly the purchase invoices, each as often as in the store. |
| `FacturasCompra.Buscar` | src/pages/compras/FacturasCompra.tsx:67-71 | The result is a subsequence of the purchase invoices. An invoice is in it exactly when it is a purchase invoice and some field value, lowered, contains the lowered term. A matching invoice appears as often as it does among the purchase invoices, and a non-matching one not at all. |
| `FacturasCompra.BuscarIsSubsequenceOfStore` | src/pages/compras/FacturasCompra.tsx:15-16 | The search result is an order-preserving subsequence of the whole store. |
| `FacturasCompra.BuscarCaseInsensitive` | src/pages/compras/FacturasCompra.tsx:69 | Terms that differ only in letter case give the same result. |
| `FacturasCompra.BuscarEmptyKeepsAll` | src/pages/compras/FacturasCompra.tsx:67-71 | The empty term keeps every purchase invoice, because each has an id string. |
| `FacturasCompra.AccionDePago` | src/pages/compras/FacturasCompra.tsx:171-187 | "Mark paid" is offered exactly on pending invoices and "cancel payment" exactly on paid ones. Overdue invoices get neither. |
| `FacturasCompra.Find` | src/pages/compras/FacturasCompra.tsx:26 | The result is absent exactly when no invoice has the id. When present, it is the first invoice in the list with that id. |
| `FacturasCompra.DeleteArchivoClearsOnlyArchivo` | src/pages/compras/FacturasCompra.tsx:23-32 | When the id is unique in the store, the update the handler sends makes `archivo` absent on that invoice. It changes no other field and no other invoice. |
| `FacturasCompra.Page.constructor` | src/pages/compras/FacturasCompra.tsx:10-11 | The page starts with an empty search term and no selection. |
| `FacturasCompra.Page.SetSearchTerm` | src/pages/compras/FacturasCompra.tsx:96 | Typing sets the term and keeps the selection. |
| `FacturasCompra.Page.Select` | src/pages/compras/FacturasCompra.tsx:41-57 | Opening either payment dialog selects that invoice. |
| `FacturasCompra.Page.ConfirmPago` | src/pages/compras/FacturasCompra.tsx:46-52 | With no selection nothing changes. With a selection the store gets exactly `marcarComoPagada(id, fecha)` and the selection is cleared. |
| `FacturasCompra.Page.ConfirmCancelarPago` | src/pages/compras/FacturasCompra.tsx:59-65 | With no selection nothing changes. With a selection the store gets exactly `marcarComoPendiente(id)` and the selection is cleared. |
| `FacturasCompra.Page.DeleteArchivo` | src/pages/compras/FacturasCompra.tsx:23-32 | If the user does not confirm, nothing changes. On confirmation the store gets one update with the found purchase invoice's keys and `archivo: undefined`. |
| `FacturasCompra.Page.DeleteFactura` | src/pages/compras/FacturasCompra.tsx:34-39 | If the user does not confirm, nothing changes. On confirmation the store deletes the id. |
| `EditarCliente.EmailValidoIff` | src/pages/clientes/EditarCliente.tsx:112 | The one-pass email check accepts exactly the strings that the anchored pattern matches. The pattern is local chars, one `@`, domain chars, `.`, then two or more letters. |
| `EditarCliente.EmailCaseInsensitive` | src/pages/clientes/EditarCliente.tsx:112 | Changing the case of letters never changes whether an email matches. |
| `EditarCliente.ForeignCharRejected` | src/pages/clientes/EditarCliente.tsx:112 | Any character outside the pattern's classes, such as a space, makes the email invalid. |
| `EditarCliente.TwoAtSignsRejected` | src/pages/clientes/EditarCliente.tsx:112 | A second `@` makes the email invalid. |
| `EditarCliente.ErrorDe` | src/pages/clientes/EditarCliente.tsx:79-180 | An empty field shows "Este campo es requerido". Any non-email field is error-free exactly when it is non-empty. The email is error-free exactly when it is non-empty and matches the pattern, and otherwise shows "Email inválido". |
| `EditarCliente.FormularioValidoIff` | src/pages/clientes/EditarCliente.tsx:79-180 | The form is valid exactly when all seven fields are non-empty and the email matches the pattern. |
| `EditarCliente.PrecargadoValido` | src/pages/clientes/EditarCliente.tsx:32-40 | The pre-filled values, including `contacto@empresaabc.com`, pass every rule. |

## Left out

- Persistence: the `persist` middleware and local storage are I/O. Only the in-memory state changes are modelled.
- Rendering, toasts, navigation, links, the modal-visibility flags and `isLoading` are not modelled, because they have no effect on the data.
- The `react-hook-form` and `useFieldArray` internals (`append`, `remove`, `setValue` from the party search widgets) are form plumbing. The model starts from the submitted form data.
- `crypto.randomUUID`, `URL.createObjectURL`, `useInvoiceNumber` and the upload, preview, search and modal components are not visible here. Their results are parameters.
- Floating point: amounts are exact reals, so IEEE-754 rounding, `toFixed(2)` and `toLocaleDateString` are not modelled.
- `OrZero`: models only a missing number. JavaScript's `||` also maps `NaN` and `""` to 0, and these are not modelled.
- The `try`/`catch` in both `onSubmit` handlers is not modelled: the modelled `OnSubmit` cannot throw.
- `FacturasCompra.Buscar`: searches only the string-valued fields. These are the id, type, number, dates, counterparty fields, status and payment date. In the source, `Object.values` also stringifies the numeric amounts and the `archivo` object (`"[object Object]"`). It stringifies the `items` array by joining its lines' strings with commas: `"[object Object],[object Object]"` for two lines and `""` for none. So in the source a search for `","` matches every purchase invoice with two or more lines. Those values are not searched here.
- `Text.Lower`: lowers ASCII letters only. Unicode case mapping in `toLowerCase` is not modelled.
- The client-edit submit handler only logs and navigates. It changes no store, so the model of that form has no store to change.
- A `Partial<…>` patch cannot set a required field to `undefined`. Only the optional fields have a "present but undefined" case.
- Seeding the client and supplier stores from local storage at startup is not modelled. The constructors start from the seeded lists.
