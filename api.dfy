/** The HTTP side of the page, with the network abstracted away: which request each
    action sends, what the API may answer, and the notifications shown. */
module Api {
  import opened Wrappers
  import opened Catalog

  const ApiBaseUrl := "https://func-backend-ivan.azurewebsites.net/api/inventoryapi"
  const ListQuery := "?op=listar"
  const CreateQuery := "?op=crear"
  const UpdateQuery := "?op=actualizar&id="
  const DeleteQuery := "?op=eliminar&id="

  datatype HttpMethod = Get | Post | Put | Delete

  /** The JSON body of a create or an update, and the values of the form fields. */
  datatype Payload = Payload(nombre: string, tipo: string, cantidad: int, precio: int, ubicacion: string)

  datatype Request = Request(verb: HttpMethod, url: string, body: Option<Payload>)

  /** The operation a request asks the API for. */
  datatype Operation = List | Create | Update(id: string) | Remove(id: string)

  /** What the list call gave: no usable answer (the fetch or the JSON parse failed), or
      the parsed body with its status, optional message and optional product array. */
  datatype ListReply =
    | ListUnreachable
    | ListBody(estado: string, mensaje: Option<string>, datos: Option<seq<Product>>)

  /** What a create, update or delete call gave: no usable answer, or the HTTP `ok`
      flag and the optional message of the parsed body. */
  datatype Reply = Unreachable | Body(ok: bool, mensaje: Option<string>)

  datatype ToastKind = Success | Danger | Warning | Info

  /** A notification: its colour and its message (titles are decorative). */
  datatype Toast = Toast(kind: ToastKind, message: string)

  /** The two status values that count as success for the list call. */
  predicate IsSuccessStatus(estado: string)
  {
    estado == "frontend_ready" || estado == "exitoso"
  }

  /** The server's message, or `fallback` when it is absent or empty (JavaScript's `||`). */
  function MessageOr(m: Option<string>, fallback: string): (s: string)
    ensures m.Some? && m.value != "" ==> s == m.value
    ensures s == fallback || (m.Some? && s == m.value)
    ensures fallback != "" ==> s != ""
  {
    if m.Some? && m.value != "" then m.value else fallback
  }

  /** The decimal digits of `n`, as a template literal prints a count. */
  function DecimalString(n: nat): string
  {
    var digit := ['0' + (n % 10) as char];
    if n < 10 then digit else DecimalString(n / 10) + digit
  }

  /** Form mode: a non-empty product id means the form edits that product. */
  predicate IsEdit(productId: string)
  {
    productId != ""
  }

  lemma {:induction false} AfterPrefix(a: string, b: string, c: string)
    ensures a <= a + b + c && (a + b + c)[|a|..] == b + c
    ensures b <= b + c && (b + c)[|b|..] == c
  {
    assert (a + b + c)[..|a|] == a;
    assert (b + c)[..|b|] == b;
  }

  /** This model's reading of a request, standing for the API (which is not part of
      the model): the base URL, then a query naming the operation, and for update and
      delete everything after `&id=` as the id; the method must fit the operation. */
  function Route(r: Request): (op: Option<Operation>)
    ensures op.Some? ==> ApiBaseUrl <= r.url
  {
    if !(ApiBaseUrl <= r.url) then None
    else
      var query := r.url[|ApiBaseUrl|..];
      match r.verb
      case Get => if query == ListQuery then Some(List) else None
      case Post => if query == CreateQuery then Some(Create) else None
      case Put => if UpdateQuery <= query then Some(Update(query[|UpdateQuery|..])) else None
      case Delete => if DeleteQuery <= query then Some(Remove(query[|DeleteQuery|..])) else None
  }

  /** The one request `loadProducts` sends: it asks for the list, without body. */
  function ListRequest(): (r: Request)
    ensures Route(r) == Some(List) && r.body == None
  {
    AfterPrefix(ApiBaseUrl, ListQuery, "");
    assert ApiBaseUrl + ListQuery + "" == ApiBaseUrl + ListQuery;
    assert ListQuery + "" == ListQuery;
    Request(Get, ApiBaseUrl + ListQuery, None)
  }

  /** The request `handleProductSubmit` sends for the current form: it asks for the
      update of exactly `productId` in edit mode and for a create otherwise, and it
      carries the form data. */
  function SubmitRequest(productId: string, data: Payload): (r: Request)
    ensures Route(r) == Some(if IsEdit(productId) then Update(productId) else Create)
    ensures r.body == Some(data)
  {
    if productId != "" then
      AfterPrefix(ApiBaseUrl, UpdateQuery, productId);
      Request(Put, ApiBaseUrl + UpdateQuery + productId, Some(data))
    else
      AfterPrefix(ApiBaseUrl, CreateQuery, "");
      assert ApiBaseUrl + CreateQuery + "" == ApiBaseUrl + CreateQuery;
      assert CreateQuery + "" == CreateQuery;
      Request(Post, ApiBaseUrl + CreateQuery, Some(data))
  }

  /** The request `deleteProduct` sends: it asks for the removal of exactly `id`,
      without body. */
  function DeleteRequest(id: string): (r: Request)
    ensures Route(r) == Some(Remove(id)) && r.body == None
  {
    AfterPrefix(ApiBaseUrl, DeleteQuery, id);
    Request(Delete, ApiBaseUrl + DeleteQuery + id, None)
  }

  /** Distinct products are never confused: their update requests, and their delete
      requests, differ. */
  lemma RequestsSeparateProducts(id1: string, id2: string, d1: Payload, d2: Payload)
    requires id1 != id2
    ensures IsEdit(id1) && IsEdit(id2) ==> SubmitRequest(id1, d1).url != SubmitRequest(id2, d2).url
    ensures DeleteRequest(id1).url != DeleteRequest(id2).url
  {
  }
}
