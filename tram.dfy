/** The TRAM order operations: required order number and detail
    arguments checked in a fixed order, then the request object. */
module TramApi {
  import opened Json
  import opened Requests

  /** `tram-order-detail-update` checks `orderNumber`, `detailKey` and
      `detailValue` in that order and sends exactly those three keys. */
  function TramOrderDetailUpdate(orderNumber: string, detailKey: string, detailValue: string): (r: Request)
    ensures r.LocalError? <==> orderNumber == "" || detailKey == "" || detailValue == ""
    ensures orderNumber == "" ==> r == Missing("orderNumber", "tram-order-detail-update")
    ensures orderNumber != "" && detailKey == "" ==> r == Missing("detailKey", "tram-order-detail-update")
    ensures orderNumber != "" && detailKey != "" && detailValue == "" ==>
      r == Missing("detailValue", "tram-order-detail-update")
    ensures r.Send? ==> r.path == "tram-order-detail-update"
    ensures r.Send? ==> KeysOf(r.payload) == {"orderNumber", "detailKey", "detailValue"}
    ensures r.Send? ==> Member(r.payload, "orderNumber") == Some(JStr(orderNumber))
    ensures r.Send? ==> Member(r.payload, "detailKey") == Some(JStr(detailKey))
    ensures r.Send? ==> Member(r.payload, "detailValue") == Some(JStr(detailValue))
    ensures !r.SendWithoutBody?
  {
    if orderNumber == "" then Missing("orderNumber", "tram-order-detail-update")
    else if detailKey == "" then Missing("detailKey", "tram-order-detail-update")
    else if detailValue == "" then Missing("detailValue", "tram-order-detail-update")
    else
      Send("tram-order-detail-update", JObj(map["orderNumber" := JStr(orderNumber),
                                                "detailKey" := JStr(detailKey),
                                                "detailValue" := JStr(detailValue)]))
  }

  function TramOrderDetails(orderNumber: string): (r: Request)
    ensures r.LocalError? <==> orderNumber == ""
    ensures r.LocalError? ==> r == Missing("orderNumber", "tram-order-details")
    ensures r.Send? ==> r == Send("tram-order-details", JObj(map["orderNumber" := JStr(orderNumber)]))
  {
    RequireOne("tram-order-details", "orderNumber", orderNumber)
  }

  function TramOrderDetailsClear(orderNumber: string): (r: Request)
    ensures r.LocalError? <==> orderNumber == ""
    ensures r.LocalError? ==> r == Missing("orderNumber", "tram-order-details-clear")
    ensures r.Send? ==> r == Send("tram-order-details-clear", JObj(map["orderNumber" := JStr(orderNumber)]))
  {
    RequireOne("tram-order-details-clear", "orderNumber", orderNumber)
  }

  /** `tram-order-details-remove` checks `orderNumber` before `detailKey`. */
  function TramOrderDetailsRemove(orderNumber: string, detailKey: string): (r: Request)
    ensures r.LocalError? <==> orderNumber == "" || detailKey == ""
    ensures orderNumber == "" ==> r == Missing("orderNumber", "tram-order-details-remove")
    ensures orderNumber != "" && detailKey == "" ==> r == Missing("detailKey", "tram-order-details-remove")
    ensures r.Send? ==> r.path == "tram-order-details-remove"
    ensures r.Send? ==> KeysOf(r.payload) == {"orderNumber", "detailKey"}
    ensures r.Send? ==> Member(r.payload, "orderNumber") == Some(JStr(orderNumber))
    ensures r.Send? ==> Member(r.payload, "detailKey") == Some(JStr(detailKey))
    ensures !r.SendWithoutBody?
  {
    if orderNumber == "" then Missing("orderNumber", "tram-order-details-remove")
    else if detailKey == "" then Missing("detailKey", "tram-order-details-remove")
    else
      Send("tram-order-details-remove", JObj(map["orderNumber" := JStr(orderNumber),
                                                 "detailKey" := JStr(detailKey)]))
  }

  /** `tram-order-search` drops a given but empty status filter; its other
      optionals are sent whenever given. */
  function TramOrderSearch(orderId: Option<string>, maxResults: Option<int>, systemId: Option<string>,
                           sortAsc: Option<bool>, sortField: Option<string>,
                           statusFilter: Option<seq<string>>): (r: Request)
    ensures r.Send? && r.path == "tram-order-search"
    ensures Payload(r.payload, map[
      "orderId" := Str(orderId), "maxResults" := Int(maxResults), "systemId" := Str(systemId),
      "sortAsc" := Bool(sortAsc), "sortField" := Str(sortField),
      "statusFilter" := PresentNonEmptyStrs(statusFilter)])
  {
    Send("tram-order-search", ObjectOf(map[
      "orderId" := Str(orderId), "maxResults" := Int(maxResults), "systemId" := Str(systemId),
      "sortAsc" := Bool(sortAsc), "sortField" := Str(sortField),
      "statusFilter" := PresentNonEmptyStrs(statusFilter)]))
  }

  function TramOrderStatus(orderNumber: string): (r: Request)
    ensures r.LocalError? <==> orderNumber == ""
    ensures r.LocalError? ==> r == Missing("orderNumber", "tram-order-status")
    ensures r.Send? ==> r == Send("tram-order-status", JObj(map["orderNumber" := JStr(orderNumber)]))
  {
    RequireOne("tram-order-status", "orderNumber", orderNumber)
  }

  function TramOrderUnits(orderNumber: string): (r: Request)
    ensures r.LocalError? <==> orderNumber == ""
    ensures r.LocalError? ==> r == Missing("orderNumber", "tram-order-units")
    ensures r.Send? ==> r == Send("tram-order-units", JObj(map["orderNumber" := JStr(orderNumber)]))
  {
    RequireOne("tram-order-units", "orderNumber", orderNumber)
  }
}
