/**
  The product list loaded from the backend (the `useProducts` hook): the rows and
  the loading flag, and the five operations on them. The backend calls are not part
  of this model: each operation takes the reply it got as a parameter. A reply that
  carries an error and a call that throws are the same case here, because the hook
  treats them alike (a toast, a log line and the same return value).
*/
module ProductStore {
  import opened Wrappers
  import opened Catalog
  import Keyed

  /** The outcome of an insert or update that selects the written row. */
  datatype Reply<T> = Ok(row: T) | Err

  /** The outcome of the list query: the rows (null when the backend sends none), or an error. */
  datatype FetchReply = Fetched(data: Option<seq<DbProduct>>) | FetchFailed

  /** The outcome of a delete. */
  datatype DeleteReply = Deleted | DeleteFailed

  /** The outcome of an image upload. */
  datatype UploadReply = Uploaded(secure_url: string) | UploadFailed

  /** The key of a row. */
  function RowId(p: DbProduct): string
  {
    p.id
  }

  /** `prev.map(p => p.id === id ? data : p)`: the rows with that id become the returned row. */
  function ReplaceRows(ps: seq<DbProduct>, id: string, row: DbProduct): (r: seq<DbProduct>)
    ensures |r| == |ps|
  {
    Keyed.UpdateKey(ps, RowId, id, (_: DbProduct) => row)
  }

  /** `prev.filter(p => p.id !== id)` */
  function DeleteRows(ps: seq<DbProduct>, id: string): (r: seq<DbProduct>)
    ensures !Keyed.HasKey(r, RowId, id)
  {
    Keyed.RemoveKey(ps, RowId, id)
  }

  /** `data || []`: the rows of a successful fetch. */
  function FetchedRows(data: Option<seq<DbProduct>>): (r: seq<DbProduct>)
    ensures data.None? ==> r == []
    ensures data.Some? ==> r == data.value
  {
    data.GetOr([])
  }

  /** `uploadProductImage`: the upload's URL, or null when the upload throws. */
  function UploadProductImage(reply: UploadReply): (r: Option<string>)
    ensures r.Some? <==> reply.Uploaded?
    ensures r.Some? ==> r.value == reply.secure_url
  {
    match reply
    case Uploaded(url) => Some(url)
    case UploadFailed => None
  }

  /** Position by position: the rows with that id are the returned row, the others stay. */
  lemma ReplaceRowsIndex(ps: seq<DbProduct>, id: string, row: DbProduct)
    ensures forall i :: 0 <= i < |ps| ==>
      ReplaceRows(ps, id, row)[i] == if ps[i].id == id then row else ps[i]
  {
    Keyed.UpdateKeyIndex(ps, RowId, id, (_: DbProduct) => row);
  }

  /** Updating an id that is not loaded leaves the list as it is. */
  lemma ReplaceRowsAbsent(ps: seq<DbProduct>, id: string, row: DbProduct)
    requires !Keyed.HasKey(ps, RowId, id)
    ensures ReplaceRows(ps, id, row) == ps
  {
    Keyed.UpdateKeyAbsent(ps, RowId, id, (_: DbProduct) => row);
  }

  /** Deleting keeps exactly the rows with another id. */
  lemma DeleteRowsMember(ps: seq<DbProduct>, id: string, x: DbProduct)
    ensures x in DeleteRows(ps, id) <==> x in ps && x.id != id
  {
    Keyed.RemoveKeyMember(ps, RowId, id, x);
  }

  /** Deleting distributes over concatenation, so the surviving rows keep their order. */
  lemma DeleteRowsKeepsOrder(a: seq<DbProduct>, b: seq<DbProduct>, id: string)
    ensures DeleteRows(a + b, id) == DeleteRows(a, id) + DeleteRows(b, id)
  {
    Keyed.RemoveKeyAppend(a, b, RowId, id);
  }

  /** Deleting the id of a freshly created row whose id was new undoes the creation. */
  lemma DeleteUndoesCreate(ps: seq<DbProduct>, row: DbProduct)
    requires !Keyed.HasKey(ps, RowId, row.id)
    ensures DeleteRows([row] + ps, row.id) == ps
  {
    Keyed.RemoveKeyHead(row, ps, RowId);
    Keyed.RemoveKeyAbsent(ps, RowId, row.id);
  }

  /** The hook's state. */
  class ProductList {
    var products: seq<DbProduct>
    var loading: bool

    /** Nothing loaded yet and a load under way. */
    constructor()
      ensures products == [] && loading
    {
      products := [];
      loading := true;
    }

    /** `fetchProducts`: the rows replace the list on success; the loading flag ends false in every case. */
    method FetchProducts(reply: FetchReply)
      modifies this
      ensures !loading
      ensures reply.Fetched? ==> products == FetchedRows(reply.data)
      ensures reply.FetchFailed? ==> products == old(products)
    {
      match reply {
        case FetchFailed =>
        case Fetched(data) =>
          products := FetchedRows(data);
      }
      loading := false;
    }

    /** `createProduct`: on success the row goes first and is returned; on error nothing changes and null is returned. */
    method CreateProduct(reply: Reply<DbProduct>) returns (r: Option<DbProduct>)
      modifies this
      ensures loading == old(loading)
      ensures reply.Ok? ==> products == [reply.row] + old(products) && r == Some(reply.row)
      ensures reply.Err? ==> products == old(products) && r == None
    {
      match reply {
        case Err =>
          return None;
        case Ok(data) =>
          products := [data] + products;
          return Some(data);
      }
    }

    /** `updateProduct`: on success the rows with that id become the returned row, which is returned. */
    method UpdateProduct(id: string, reply: Reply<DbProduct>) returns (r: Option<DbProduct>)
      modifies this
      ensures loading == old(loading)
      ensures reply.Ok? ==> products == ReplaceRows(old(products), id, reply.row) && r == Some(reply.row)
      ensures reply.Err? ==> products == old(products) && r == None
    {
      match reply {
        case Err =>
          return None;
        case Ok(data) =>
          products := ReplaceRows(products, id, data);
          return Some(data);
      }
    }

    /** `deleteProduct`: on success the rows with that id go and true is returned; on error false. */
    method DeleteProduct(id: string, reply: DeleteReply) returns (ok: bool)
      modifies this
      ensures loading == old(loading)
      ensures ok <==> reply.Deleted?
      ensures ok ==> products == DeleteRows(old(products), id)
      ensures !ok ==> products == old(products)
    {
      if reply.DeleteFailed? {
        return false;
      }
      products := DeleteRows(products, id);
      return true;
    }
  }
}
