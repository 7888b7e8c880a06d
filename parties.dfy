/**
 * The party record shared by the client and supplier stores (`Cliente` and
 * `Proveedor` declare the same eight string fields), its `Partial<…>` patch,
 * the object-spread merge `{ ...p, ...patch }`, and the two collection
 * updates both stores perform: `map` with a merge on matching ids, and
 * `filter` on differing ids.
 */
module Parties {
  import opened Wrappers
  import opened Sequences

  datatype Party = Party(
    id: string,
    nombre: string,
    nif: string,
    email: string,
    telefono: string,
    direccion: string,
    ciudad: string,
    codigoPostal: string)

  /** `Partial<Party>`: a field is `Some` when the patch object carries that key. */
  datatype PartyPatch = PartyPatch(
    id: Option<string>,
    nombre: Option<string>,
    nif: Option<string>,
    email: Option<string>,
    telefono: Option<string>,
    direccion: Option<string>,
    ciudad: Option<string>,
    codigoPostal: Option<string>)

  /** The empty partial `{}`. */
  const EmptyPatch := PartyPatch(None, None, None, None, None, None, None, None)

  /** `{ ...p, ...patch }`: each field the patch carries overrides the record's. */
  function Merge(p: Party, patch: PartyPatch): Party {
    p.(id := patch.id.GetOr(p.id),
       nombre := patch.nombre.GetOr(p.nombre),
       nif := patch.nif.GetOr(p.nif),
       email := patch.email.GetOr(p.email),
       telefono := patch.telefono.GetOr(p.telefono),
       direccion := patch.direccion.GetOr(p.direccion),
       ciudad := patch.ciudad.GetOr(p.ciudad),
       codigoPostal := patch.codigoPostal.GetOr(p.codigoPostal))
  }

  /** `ps.map(p => p.id === id ? { ...p, ...patch } : p)`. */
  function Update(ps: seq<Party>, id: string, patch: PartyPatch): (r: seq<Party>)
    ensures |r| == |ps|
    ensures forall i :: 0 <= i < |ps| ==> r[i] == if ps[i].id == id then Merge(ps[i], patch) else ps[i]
  {
    MapWhere(ps, (p: Party) => p.id == id, (p: Party) => Merge(p, patch))
  }

  /** `ps.filter(p => p.id !== id)`: the records with another id, in their original order. */
  function Delete(ps: seq<Party>, id: string): (r: seq<Party>)
    ensures IsSubsequence(r, ps)
    ensures forall p :: p in r ==> p.id != id
    ensures forall p :: multiset(r)[p] == if p.id != id then multiset(ps)[p] else 0
  {
    var keep := (p: Party) => p.id != id;
    FilterSpec(ps, keep);
    Filter(ps, keep)
  }

  /** The empty partial changes no record. */
  lemma MergeEmptyPatch(p: Party)
    ensures Merge(p, EmptyPatch) == p
  {
  }

  /** Updating with `{}` leaves the collection unchanged. */
  lemma UpdateEmptyPatch(ps: seq<Party>, id: string)
    ensures Update(ps, id, EmptyPatch) == ps
  {
    var r := Update(ps, id, EmptyPatch);
    assert forall i :: 0 <= i < |ps| ==> r[i] == ps[i];
  }

  /** Update and delete on an id that no record carries leave the collection unchanged. */
  lemma UnknownIdIsNoOp(ps: seq<Party>, id: string, patch: PartyPatch)
    requires forall p :: p in ps ==> p.id != id
    ensures Update(ps, id, patch) == ps
    ensures Delete(ps, id) == ps
  {
    MapWhereNoneSelected(ps, (p: Party) => p.id == id, (p: Party) => Merge(p, patch));
    FilterKeepsAll(ps, (p: Party) => p.id != id);
  }

  /** After `delete(id)`, an `update(id, …)` changes nothing. */
  lemma UpdateAfterDelete(ps: seq<Party>, id: string, patch: PartyPatch)
    ensures Update(Delete(ps, id), id, patch) == Delete(ps, id)
  {
    UnknownIdIsNoOp(Delete(ps, id), id, patch);
  }

  /**
   * `add(x)`, then `delete(x.id)`, then `update(x.id, …)` restores the
   * original collection when no record carried `x.id` before.
   */
  lemma AddDeleteUpdate(ps: seq<Party>, x: Party, patch: PartyPatch)
    requires forall p :: p in ps ==> p.id != x.id
    ensures Update(Delete(ps + [x], x.id), x.id, patch) == ps
  {
    var keep := (p: Party) => p.id != x.id;
    FilterAppend(ps, [x], keep);
    FilterKeepsAll(ps, keep);
    assert Filter([x], keep) == [];
    assert Delete(ps + [x], x.id) == ps;
    UnknownIdIsNoOp(ps, x.id, patch);
  }
}
