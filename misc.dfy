/** The grid, notification, order, permission, place-name, rate-limit and
    user-preference operations. `order-submit` loops over its products and
    abandons the call at the first incomplete one; the rest are guarded
    insertions into a fresh request object. */
module MiscApi {
  import opened Json
  import opened Requests

  function Grid2ll(gridType: string, responseShape: Option<string>, path: Option<string>,
                   row: Option<string>): (r: Request)
    ensures r.LocalError? <==> gridType == ""
    ensures r.LocalError? ==> r == Missing("gridType", "grid2ll")
    ensures r.Send? ==> r.path == "grid2ll"
    ensures r.Send? ==> Payload(r.payload, map[
      "gridType" := Some(JStr(gridType)), "responseShape" := Str(responseShape),
      "path" := Str(path), "row" := Str(row)])
    ensures !r.SendWithoutBody?
  {
    if gridType == "" then Missing("gridType", "grid2ll")
    else
      Send("grid2ll", ObjectOf(map[
        "gridType" := Some(JStr(gridType)), "responseShape" := Str(responseShape),
        "path" := Str(path), "row" := Str(row)]))
  }

  function Notifications(systemId: string): (r: Request)
    ensures r.LocalError? <==> systemId == ""
    ensures r.LocalError? ==> r == Missing("systemId", "notifications")
    ensures r.Send? ==> r == Send("notifications", JObj(map["systemId" := JStr(systemId)]))
  {
    RequireOne("notifications", "systemId", systemId)
  }

  /** `order-products`; `entityIds` is a single string here. */
  function OrderProducts(datasetName: string, entityIds: Option<string>, listId: Option<string>): (r: Request)
    ensures r.LocalError? <==> datasetName == ""
    ensures r.LocalError? ==> r == Missing("datasetName", "order-products")
    ensures r.Send? ==> r.path == "order-products"
    ensures r.Send? ==> Payload(r.payload, map[
      "datasetName" := Some(JStr(datasetName)), "entityIds" := Str(entityIds), "listId" := Str(listId)])
    ensures !r.SendWithoutBody?
  {
    if datasetName == "" then Missing("datasetName", "order-products")
    else
      Send("order-products", ObjectOf(map[
        "datasetName" := Some(JStr(datasetName)), "entityIds" := Str(entityIds), "listId" := Str(listId)]))
  }

  /** A product to order; the three strings are required. */
  datatype Product = Product(datasetName: string, entityId: string, productId: string,
                             productCode: Option<string>)

  predicate Complete(p: Product)
  {
    p.datasetName != "" && p.entityId != "" && p.productId != ""
  }

  function ProductFields(p: Product): Fields
  {
    map["datasetName" := Some(JStr(p.datasetName)), "entityId" := Some(JStr(p.entityId)),
        "productId" := Some(JStr(p.productId)), "productCode" := Str(p.productCode)]
  }

  /** The items of `products`, one per product and in order. */
  function ProductItem(p: Product): JSON
  {
    ObjectOf(ProductFields(p))
  }

  function ProductItems(ps: seq<Product>): seq<JSON>
  {
    Items(ps, ProductItem)
  }

  /** Each product item carries the three required strings and
      `productCode` exactly when it is set. */
  lemma ProductItemShape(p: Product)
    ensures ObjectOf(ProductFields(p)).JObj?
    ensures Member(ObjectOf(ProductFields(p)), "datasetName") == Some(JStr(p.datasetName))
    ensures Member(ObjectOf(ProductFields(p)), "entityId") == Some(JStr(p.entityId))
    ensures Member(ObjectOf(ProductFields(p)), "productId") == Some(JStr(p.productId))
    ensures Member(ObjectOf(ProductFields(p)), "productCode") == Str(p.productCode)
    ensures KeysOf(ObjectOf(ProductFields(p))) <= {"datasetName", "entityId", "productId", "productCode"}
  {
    var j := ObjectOf(ProductFields(p));
    assert Member(j, "datasetName") == Lookup(ProductFields(p), "datasetName");
    CarriesKeys(j, ProductFields(p));
  }

  /** The loop over the products: stops at the first incomplete product,
      otherwise yields one item per product. */
  method ProductsArray(products: seq<Product>) returns (ok: bool, items: seq<JSON>)
    ensures ok <==> forall i :: 0 <= i < |products| ==> Complete(products[i])
    ensures ok ==> items == ProductItems(products)
  {
    items := [];
    for i := 0 to |products|
      invariant forall j :: 0 <= j < i ==> Complete(products[j])
      invariant items == Items(products[..i], ProductItem)
    {
      var p := products[i];
      if p.entityId == "" || p.productId == "" || p.datasetName == "" {
        return false, items;
      }
      ItemsSnoc(products, i, ProductItem);
      items := items + [ProductItem(p)];
    }
    assert products[..|products|] == products;
    ok := true;
  }

  /** `order-submit`: an empty list is refused, then any incomplete product
      abandons the call; otherwise `products` holds one item per product in
      order, followed by the trailing optionals that are given. */
  method OrderSubmit(products: seq<Product>, autoBulkOrder: Option<bool>, processingParameters: Option<string>,
                     priority: Option<int>, orderComment: Option<string>, systemId: Option<string>)
    returns (r: Request)
    ensures r.LocalError? <==> products == [] || exists i :: 0 <= i < |products| && !Complete(products[i])
    ensures products == [] ==> r == LocalError(-1, "'products' cannot be empty for order-submit.")
    ensures products != [] && r.LocalError? ==>
      r == LocalError(-1, "Product.datasetName, entityId, and productId are required!")
    ensures r.Send? ==> r.path == "order-submit"
    ensures r.Send? ==> Payload(r.payload, map[
      "products" := Some(JArr(ProductItems(products))),
      "autoBulkOrder" := Bool(autoBulkOrder),
      "processingParameters" := Str(processingParameters),
      "priority" := Int(priority),
      "orderComment" := Str(orderComment),
      "systemId" := Str(systemId)])
    ensures !r.SendWithoutBody?
  {
    if products == [] {
      return LocalError(-1, "'products' cannot be empty for order-submit.");
    }
    var ok, items := ProductsArray(products);
    if !ok {
      return LocalError(-1, "Product.datasetName, entityId, and productId are required!");
    }
    r := Send("order-submit", ObjectOf(map[
      "products" := Some(JArr(items)),
      "autoBulkOrder" := Bool(autoBulkOrder),
      "processingParameters" := Str(processingParameters),
      "priority" := Int(priority),
      "orderComment" := Str(orderComment),
      "systemId" := Str(systemId)]));
  }

  function Permissions(): (r: Request)
    ensures r.SendWithoutBody? && r.path == "permissions"
  {
    SendWithoutBody("permissions")
  }

  function Placename(featureType: Option<string>, name: Option<string>): (r: Request)
    ensures r.Send? && r.path == "placename"
    ensures Payload(r.payload, map["featureType" := Str(featureType), "name" := Str(name)])
  {
    Send("placename", ObjectOf(map["featureType" := Str(featureType), "name" := Str(name)]))
  }

  /** `rate-limit-summary` sends the address vector whenever it is given,
      even when it is empty. */
  function RateLimitSummary(ipAddress: Option<seq<string>>): (r: Request)
    ensures r.Send? && r.path == "rate-limit-summary"
    ensures Payload(r.payload, map["ipAddress" := Strs(ipAddress)])
    ensures r.payload == JNull <==> ipAddress.None?
  {
    var fields := map["ipAddress" := Strs(ipAddress)];
    ObjectOfNull(fields);
    Send("rate-limit-summary", ObjectOf(fields))
  }

  /** `user-preference-get` sends `setting` whenever it is given, even
      when it is empty. */
  function UserPreferenceGet(systemId: Option<string>, setting: Option<seq<string>>): (r: Request)
    ensures r.Send? && r.path == "user-preference-get"
    ensures Payload(r.payload, map["systemId" := Str(systemId), "setting" := Strs(setting)])
  {
    Send("user-preference-get", ObjectOf(map["systemId" := Str(systemId), "setting" := Strs(setting)]))
  }

  /** `user-preference-set` checks `systemId` first, then refuses
      preferences that nlohmann deems empty (null, `[]` or `{}`); a scalar
      is accepted. */
  function UserPreferenceSet(systemId: string, userPreferences: JSON): (r: Request)
    ensures r.LocalError? <==> systemId == "" || IsEmpty(userPreferences)
    ensures systemId == "" ==> r == Missing("systemId", "user-preference-set")
    ensures systemId != "" && IsEmpty(userPreferences) ==>
      r == LocalError(-1, "'userPreferences' cannot be empty for user-preference-set.")
    ensures r.Send? ==> r.path == "user-preference-set" && KeysOf(r.payload) == {"systemId", "userPreferences"}
    ensures r.Send? ==> Member(r.payload, "systemId") == Some(JStr(systemId))
    ensures r.Send? ==> Member(r.payload, "userPreferences") == Some(userPreferences)
    ensures !r.SendWithoutBody?
  {
    if systemId == "" then Missing("systemId", "user-preference-set")
    else if IsEmpty(userPreferences) then
      LocalError(-1, "'userPreferences' cannot be empty for user-preference-set.")
    else
      Send("user-preference-set", JObj(map["systemId" := JStr(systemId), "userPreferences" := userPreferences]))
  }
}
