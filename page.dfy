/** The page's mutable state and the handlers that change it: the product store
    `allProducts`, the hidden `productId` field that decides the form's mode, the other
    form fields, the submit button, the table body and the two statistics. */
module Page {
  import opened Wrappers
  import opened Catalog
  import opened Text
  import opened Api
  import opened Render
  import Search
  import Stats

  const AddLabel := "Agregar Producto"
  const SaveLabel := "Guardar Cambios"
  const AddStyle := "btn btn-primary"
  const SaveStyle := "btn btn-warning"

  /** The values `form.reset()` restores. They are the form's HTML defaults, which are
      not part of this model, so one fixed value stands for them. */
  const DefaultFields := Payload("", "", 0, 0, "")

  /** The notification of a successful list load. */
  function LoadedMessage(n: nat): string
  {
    "Se cargaron " + DecimalString(n) + " productos"
  }

  class InventoryPage {
    var allProducts: seq<Product>
    var productId: string
    var fields: Payload
    var submitLabel: string
    var submitStyle: string
    var table: TableBody
    var shownCount: int
    var shownValue: int

    /** The page before the first load: an empty store and the form in create mode. */
    constructor ()
      ensures allProducts == [] && productId == "" && fields == DefaultFields
      ensures submitLabel == AddLabel && submitStyle == AddStyle
      ensures table == EmptyState && shownCount == 0 && shownValue == 0
    {
      allProducts := [];
      productId := "";
      fields := DefaultFields;
      submitLabel, submitStyle := AddLabel, AddStyle;
      table := EmptyState;
      shownCount, shownValue := 0, 0;
    }

    /** `updateStats`: the count and the value of the whole store. */
    method UpdateStats()
      modifies this`shownCount, this`shownValue
      ensures shownCount == |allProducts| && shownValue == Stats.TotalValue(allProducts)
    {
      shownCount := |allProducts|;
      shownValue := Stats.TotalValue(allProducts);
    }

    /** `showExampleData`: shows the two demonstration rows and their count. It leaves
        the store and the inventory value alone. */
    method ShowExampleData()
      modifies this`table, this`shownCount
      ensures Renders(Some(ExampleProducts), table) && shownCount == |ExampleProducts|
    {
      table := RenderTable(Some(ExampleProducts));
      shownCount := |ExampleProducts|;
    }

    /** `loadProducts`: it sends the list request, and `reply` is what came back. The
        store is replaced only on one of the two success statuses; on any other status
        and on a failed call it keeps its old value. */
    method LoadProducts(reply: ListReply) returns (request: Request, toast: Toast)
      modifies this
      ensures request == ListRequest()
      ensures productId == old(productId) && fields == old(fields)
      ensures submitLabel == old(submitLabel) && submitStyle == old(submitStyle)
      ensures reply.ListBody? && IsSuccessStatus(reply.estado) ==>
        && allProducts == reply.datos.GetOr([])
        && Renders(Some(allProducts), table)
        && shownCount == |allProducts| && shownValue == Stats.TotalValue(allProducts)
        && toast == Toast(Success, LoadedMessage(|allProducts|))
      ensures reply.ListBody? && !IsSuccessStatus(reply.estado) ==>
        && allProducts == old(allProducts) && table == old(table)
        && shownCount == old(shownCount) && shownValue == old(shownValue)
        && toast == Toast(Warning, MessageOr(reply.mensaje, "Error al cargar productos"))
      ensures reply.ListUnreachable? ==>
        && allProducts == old(allProducts)
        && Renders(Some(ExampleProducts), table)
        && shownCount == |ExampleProducts| && shownValue == old(shownValue)
        && toast == Toast(Danger, "No se pudo conectar con la API")
    {
      request := Request(Get, ApiBaseUrl + ListQuery, None);
      match reply
      case ListBody(estado, mensaje, datos) =>
        if estado == "frontend_ready" || estado == "exitoso" {
          allProducts := datos.GetOr([]);
          table := RenderTable(Some(allProducts));
          UpdateStats();
          toast := Toast(Success, LoadedMessage(|allProducts|));
        } else {
          toast := Toast(Warning, MessageOr(mensaje, "Error al cargar productos"));
        }
      case ListUnreachable =>
        toast := Toast(Danger, "No se pudo conectar con la API");
        ShowExampleData();
    }

    /** The search box and type filter: shows the matching loaded products. Neither
        the store nor the statistics change. */
    method FilterProducts(searchInput: string, filterType: string)
      modifies this`table
      ensures Renders(Some(Search.FilterProducts(allProducts, searchInput, filterType)), table)
    {
      table := RenderTable(Some(Search.FilterProducts(allProducts, searchInput, filterType)));
    }

    /** `resetForm`: back to create mode with the default field values. */
    method ResetForm()
      modifies this`productId, this`fields, this`submitLabel, this`submitStyle
      ensures productId == "" && !IsEdit(productId) && fields == DefaultFields
      ensures submitLabel == AddLabel && submitStyle == AddStyle
    {
      fields := DefaultFields;
      productId := "";
      submitLabel, submitStyle := AddLabel, AddStyle;
    }

    /** `editProduct`: copies a row's values into the form and switches to edit mode. */
    method EditProduct(id: string, nombre: string, tipo: string, cantidad: int, precio: int, ubicacion: string)
      returns (toast: Toast)
      modifies this`productId, this`fields, this`submitLabel, this`submitStyle
      ensures productId == id && (IsEdit(productId) <==> id != "")
      ensures fields == Payload(nombre, tipo, cantidad, precio, ubicacion)
      ensures submitLabel == SaveLabel && submitStyle == SaveStyle
      ensures toast == Toast(Info, "Editando: " + nombre)
    {
      productId := id;
      fields := Payload(nombre, tipo, cantidad, precio, ubicacion);
      submitLabel, submitStyle := SaveLabel, SaveStyle;
      toast := Toast(Info, "Editando: " + nombre);
    }

    /** A click on a row's edit button, as this model reads the handler text: it passes
        the row's key, its escaped name with the quote escapes undone, and its other
        fields to `editProduct`, so for a row built by `RowFor` the form ends up editing
        that product with its values. */
    method EditFromRow(row: Row) returns (toast: Toast)
      modifies this`productId, this`fields, this`submitLabel, this`submitStyle
      ensures productId == row.product.rowKey
      ensures submitLabel == SaveLabel && submitStyle == SaveStyle
      ensures toast == Toast(Info, "Editando: " + UnescapeQuotes(row.escapedName))
      ensures row == RowFor(row.product) ==>
                && fields == Payload(row.product.nombre, row.product.tipo, row.product.cantidad,
                                     row.product.precio, row.product.ubicacion)
                && toast == Toast(Info, "Editando: " + row.product.nombre)
    {
      var p := row.product;
      toast := EditProduct(p.rowKey, UnescapeQuotes(row.escapedName), p.tipo, p.cantidad, p.precio, p.ubicacion);
      if row == RowFor(p) {
        EscapeRoundTrip(p.nombre);
      }
    }

    /** `handleProductSubmit` once the call it sends has answered with `reply`. The
        request depends on the mode; only an ok answer resets the form and asks for a
        reload (a separate `LoadProducts`); otherwise every field keeps its value. */
    method HandleProductSubmit(reply: Reply) returns (request: Request, toast: Toast, reload: bool)
      modifies this`productId, this`fields, this`submitLabel, this`submitStyle
      ensures request == SubmitRequest(old(productId), old(fields))
      ensures reload <==> reply.Body? && reply.ok
      ensures reload ==>
        && productId == "" && fields == DefaultFields
        && submitLabel == AddLabel && submitStyle == AddStyle
        && toast == Toast(Success, MessageOr(reply.mensaje, "Operación completada"))
      ensures !reload ==>
        && productId == old(productId) && fields == old(fields)
        && submitLabel == old(submitLabel) && submitStyle == old(submitStyle)
      ensures reply.Body? && !reply.ok ==>
        toast == Toast(Danger, MessageOr(reply.mensaje, "Error en la operación"))
      ensures reply.Unreachable? ==> toast == Toast(Danger, "No se pudo completar la operación")
    {
      var isEdit := productId != "";
      if isEdit {
        request := Request(Put, ApiBaseUrl + UpdateQuery + productId, Some(fields));
      } else {
        request := Request(Post, ApiBaseUrl + CreateQuery, Some(fields));
      }
      match reply
      case Body(ok, mensaje) =>
        if ok {
          toast := Toast(Success, MessageOr(mensaje, "Operación completada"));
          ResetForm();
          reload := true;
        } else {
          toast := Toast(Danger, MessageOr(mensaje, "Error en la operación"));
          reload := false;
        }
      case Unreachable =>
        toast := Toast(Danger, "No se pudo completar la operación");
        reload := false;
    }

    /** A submit followed, on an ok answer, by the reload it triggers (`reloadRequest`).
        The store never changes locally: it changes only when that reload succeeds. */
    method SubmitThenReload(reply: Reply, listReply: ListReply) returns (request: Request, reloadRequest: Option<Request>)
      modifies this
      ensures request == SubmitRequest(old(productId), old(fields))
      ensures reloadRequest == (if reply.Body? && reply.ok then Some(ListRequest()) else None)
      ensures !(reply.Body? && reply.ok) ==>
        && allProducts == old(allProducts) && productId == old(productId) && fields == old(fields)
        && submitLabel == old(submitLabel) && submitStyle == old(submitStyle)
        && table == old(table) && shownCount == old(shownCount) && shownValue == old(shownValue)
      ensures reply.Body? && reply.ok ==>
        && productId == "" && fields == DefaultFields
        && submitLabel == AddLabel && submitStyle == AddStyle
      ensures reply.Body? && reply.ok && listReply.ListBody? && IsSuccessStatus(listReply.estado) ==>
        && allProducts == listReply.datos.GetOr([])
        && Renders(Some(allProducts), table)
        && shownCount == |allProducts| && shownValue == Stats.TotalValue(allProducts)
      ensures reply.Body? && reply.ok && listReply.ListBody? && !IsSuccessStatus(listReply.estado) ==>
        && allProducts == old(allProducts) && table == old(table)
        && shownCount == old(shownCount) && shownValue == old(shownValue)
      ensures reply.Body? && reply.ok && listReply.ListUnreachable? ==>
        && allProducts == old(allProducts)
        && Renders(Some(ExampleProducts), table)
        && shownCount == |ExampleProducts| && shownValue == old(shownValue)
    {
      var toast, reload;
      request, toast, reload := HandleProductSubmit(reply);
      if reload {
        var listRequest, loadToast := LoadProducts(listReply);
        reloadRequest := Some(listRequest);
      } else {
        reloadRequest := None;
      }
    }
  }

  /** What a click on a row's delete button does. */
  datatype DeleteEffect = DeleteEffect(request: Option<Request>, toast: Option<Toast>, reload: bool)

  /** `deleteProduct`: nothing without confirmation; otherwise a DELETE of the product,
      a notification, and a reload only on an ok answer. The store is not touched. */
  function DeleteProduct(id: string, confirmed: bool, reply: Reply): (e: DeleteEffect)
    ensures e.request.Some? <==> confirmed
    ensures confirmed ==> e.request == Some(DeleteRequest(id)) && e.toast.Some?
    ensures !confirmed ==> e.toast.None? && !e.reload
    ensures e.reload <==> confirmed && reply.Body? && reply.ok
    ensures e.reload ==> e.toast == Some(Toast(Success, MessageOr(reply.mensaje, "Producto eliminado")))
    ensures confirmed && reply.Body? && !reply.ok ==>
              e.toast == Some(Toast(Danger, MessageOr(reply.mensaje, "Error al eliminar")))
    ensures confirmed && reply.Unreachable? ==>
              e.toast == Some(Toast(Danger, "No se pudo eliminar el producto"))
  {
    if !confirmed then DeleteEffect(None, None, false)
    else
      var request := Request(Delete, ApiBaseUrl + DeleteQuery + id, None);
      match reply
      case Body(ok, mensaje) =>
        if ok then DeleteEffect(Some(request), Some(Toast(Success, MessageOr(mensaje, "Producto eliminado"))), true)
        else DeleteEffect(Some(request), Some(Toast(Danger, MessageOr(mensaje, "Error al eliminar"))), false)
      case Unreachable =>
        DeleteEffect(Some(request), Some(Toast(Danger, "No se pudo eliminar el producto")), false)
  }

}
