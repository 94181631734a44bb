/** src/pages/ListProducts/ListProducts.jsx: the admin product table with
    its delete-confirmation dialog. Each async handler is split at its
    `await`: the part before the request and the part after it, whose
    outcome is a parameter. Toasts are left out. */
module ListProducts {
  import opened Common

  /** A row of `GET /api/admin/products` (only the fields the page reads). */
  datatype AdminProduct = AdminProduct(id: int, name: string, categoryName: Option<string>, price: int, inStock: bool)

  /** `list.filter(item => item.id !== id)` */
  function WithoutProduct(list: seq<AdminProduct>, id: int): seq<AdminProduct>
  {
    Keep(list, (p: AdminProduct) => p.id != id)
  }

  /** Deleting drops exactly the rows with that id and keeps the others in order. */
  lemma WithoutProductExact(list: seq<AdminProduct>, id: int)
    ensures forall p :: p in WithoutProduct(list, id) <==> p in list && p.id != id
    ensures forall a, b :: a + b == list ==> WithoutProduct(list, id) == WithoutProduct(a, id) + WithoutProduct(b, id)
    ensures (forall i :: 0 <= i < |list| ==> list[i].id != id) ==> WithoutProduct(list, id) == list
  {
    var pred := (p: AdminProduct) => p.id != id;
    forall p ensures p in Keep(list, pred) <==> p in list && p.id != id {
      KeepMembers(list, pred, p);
    }
    forall a, b | a + b == list ensures Keep(list, pred) == Keep(a, pred) + Keep(b, pred) {
      KeepAppend(a, b, pred);
    }
    if forall i :: 0 <= i < |list| ==> list[i].id != id {
      KeepAll(list, pred);
    }
  }

  class ProductTable {
    var list: seq<AdminProduct>
    var loading: bool
    var isDeleteDialogOpen: bool
    var productToDelete: Option<AdminProduct>
    ghost var requests: seq<Request>

    constructor ()
      ensures list == [] && loading && !isDeleteDialogOpen && productToDelete == None && requests == []
    {
      list, loading, isDeleteDialogOpen, productToDelete := [], true, false, None;
      requests := [];
    }

    /** `fetchProductList` before its request: loading is on. */
    method BeginFetch()
      modifies this`loading
      ensures loading
    {
      loading := true;
    }

    /** `fetchProductList` after its request: the list is replaced only on
        success, and loading is off on every path. */
    method EndFetch(response: Option<seq<AdminProduct>>)
      modifies this`list, this`loading
      ensures !loading
      ensures list == if response.Some? then response.value else old(list)
    {
      if response.Some? {
        list := response.value;
      }
      loading := false;
    }

    /** `confirmDelete`: record the target and open the dialog. */
    method ConfirmDelete(p: AdminProduct)
      modifies this`productToDelete, this`isDeleteDialogOpen
      ensures productToDelete == Some(p) && isDeleteDialogOpen
    {
      productToDelete := Some(p);
      isDeleteDialogOpen := true;
    }

    /** The dialog's Cancel button closes it and keeps the target. */
    method Cancel()
      modifies this`isDeleteDialogOpen
      ensures !isDeleteDialogOpen
    {
      isDeleteDialogOpen := false;
    }

    /** `handleDelete`: with no target, nothing happens. Otherwise send the
        delete; on success drop the rows with the target's id; on every
        path close the dialog and clear the target. */
    method HandleDelete(success: bool)
      modifies this`list, this`isDeleteDialogOpen, this`productToDelete, this`requests
      ensures old(productToDelete).None? ==>
        list == old(list) && isDeleteDialogOpen == old(isDeleteDialogOpen) &&
        productToDelete == None && requests == old(requests)
      ensures old(productToDelete).Some? ==>
        var target := old(productToDelete).value;
        requests == old(requests) + [DeleteProduct(target.id)] &&
        list == (if success then WithoutProduct(old(list), target.id) else old(list)) &&
        !isDeleteDialogOpen && productToDelete == None
    {
      if productToDelete.None? {
        return;
      }
      var target := productToDelete.value;
      requests := requests + [DeleteProduct(target.id)];
      if success {
        list := WithoutProduct(list, target.id);
      }
      isDeleteDialogOpen := false;
      productToDelete := None;
    }
  }
}
