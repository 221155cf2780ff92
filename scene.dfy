/** The scene-list, scene-metadata and scene-search operations: required
    arguments checked in a fixed order, then guarded insertions into a
    fresh request object. */
module SceneApi {
  import opened Json
  import opened Requests

  function SceneListAdd(listId: string, datasetName: string, idField: Option<string>,
                        entityId: Option<string>, entityIds: Option<seq<string>>,
                        timeToLive: Option<string>, checkDownloadRestriction: Option<bool>): (r: Request)
    ensures r.LocalError? <==> listId == "" || datasetName == ""
    ensures listId == "" ==> r == Missing("listId", "scene-list-add")
    ensures listId != "" && datasetName == "" ==> r == Missing("datasetName", "scene-list-add")
    ensures r.Send? ==> r.path == "scene-list-add"
    ensures r.Send? ==> Payload(r.payload, map[
      "listId" := Some(JStr(listId)), "datasetName" := Some(JStr(datasetName)),
      "idField" := Str(idField), "entityId" := Str(entityId),
      "entityIds" := PresentNonEmptyStrs(entityIds), "timeToLive" := Str(timeToLive),
      "checkDownloadRestriction" := Bool(checkDownloadRestriction)])
    ensures !r.SendWithoutBody?
  {
    if listId == "" then Missing("listId", "scene-list-add")
    else if datasetName == "" then Missing("datasetName", "scene-list-add")
    else
      Send("scene-list-add", ObjectOf(map[
        "listId" := Some(JStr(listId)), "datasetName" := Some(JStr(datasetName)),
        "idField" := Str(idField), "entityId" := Str(entityId),
        "entityIds" := PresentNonEmptyStrs(entityIds), "timeToLive" := Str(timeToLive),
        "checkDownloadRestriction" := Bool(checkDownloadRestriction)]))
  }

  function SceneListGet(listId: string, datasetName: Option<string>, startingNumber: Option<int>,
                        maxResults: Option<int>): (r: Request)
    ensures r.LocalError? <==> listId == ""
    ensures r.LocalError? ==> r == Missing("listId", "scene-list-get")
    ensures r.Send? ==> r.path == "scene-list-get"
    ensures r.Send? ==> Payload(r.payload, map[
      "listId" := Some(JStr(listId)), "datasetName" := Str(datasetName),
      "startingNumber" := Int(startingNumber), "maxResults" := Int(maxResults)])
    ensures !r.SendWithoutBody?
  {
    if listId == "" then Missing("listId", "scene-list-get")
    else
      Send("scene-list-get", ObjectOf(map[
        "listId" := Some(JStr(listId)), "datasetName" := Str(datasetName),
        "startingNumber" := Int(startingNumber), "maxResults" := Int(maxResults)]))
  }

  /** Unlike `scene-list-add`, an empty `entityIds` vector is still sent. */
  function SceneListRemove(listId: string, datasetName: Option<string>, entityId: Option<string>,
                           entityIds: Option<seq<string>>): (r: Request)
    ensures r.LocalError? <==> listId == ""
    ensures r.LocalError? ==> r == Missing("listId", "scene-list-remove")
    ensures r.Send? ==> r.path == "scene-list-remove"
    ensures r.Send? ==> Payload(r.payload, map[
      "listId" := Some(JStr(listId)), "datasetName" := Str(datasetName),
      "entityId" := Str(entityId), "entityIds" := Strs(entityIds)])
    ensures !r.SendWithoutBody?
  {
    if listId == "" then Missing("listId", "scene-list-remove")
    else
      Send("scene-list-remove", ObjectOf(map[
        "listId" := Some(JStr(listId)), "datasetName" := Str(datasetName),
        "entityId" := Str(entityId), "entityIds" := Strs(entityIds)]))
  }

  function SceneListSummary(listId: string, datasetName: Option<string>): (r: Request)
    ensures r.LocalError? <==> listId == ""
    ensures r.LocalError? ==> r == Missing("listId", "scene-list-summary")
    ensures r.Send? ==> r.path == "scene-list-summary"
    ensures r.Send? ==> Payload(r.payload, map["listId" := Some(JStr(listId)), "datasetName" := Str(datasetName)])
    ensures !r.SendWithoutBody?
  {
    if listId == "" then Missing("listId", "scene-list-summary")
    else Send("scene-list-summary", ObjectOf(map["listId" := Some(JStr(listId)), "datasetName" := Str(datasetName)]))
  }

  /** `scene-list-types` has no check; without a filter the payload is `null`. */
  function SceneListTypes(listFilter: Option<string>): (r: Request)
    ensures r.Send? && r.path == "scene-list-types"
    ensures Payload(r.payload, map["listFilter" := Str(listFilter)])
    ensures r.payload == JNull <==> listFilter.None?
  {
    var fields := map["listFilter" := Str(listFilter)];
    ObjectOfNull(fields);
    Send("scene-list-types", ObjectOf(fields))
  }

  function SceneMetadata(datasetName: string, entityId: string, idType: Option<string>,
                         metadataType: Option<string>, includeNullMetadataValues: Option<bool>,
                         useCustomization: Option<bool>): (r: Request)
    ensures r.LocalError? <==> datasetName == "" || entityId == ""
    ensures datasetName == "" ==> r == Missing("datasetName", "scene-metadata")
    ensures datasetName != "" && entityId == "" ==> r == Missing("entityId", "scene-metadata")
    ensures r.Send? ==> r.path == "scene-metadata"
    ensures r.Send? ==> Payload(r.payload, map[
      "datasetName" := Some(JStr(datasetName)), "entityId" := Some(JStr(entityId)),
      "idType" := Str(idType), "metadataType" := Str(metadataType),
      "includeNullMetadataValues" := Bool(includeNullMetadataValues),
      "useCustomization" := Bool(useCustomization)])
    ensures !r.SendWithoutBody?
  {
    if datasetName == "" then Missing("datasetName", "scene-metadata")
    else if entityId == "" then Missing("entityId", "scene-metadata")
    else
      Send("scene-metadata", ObjectOf(map[
        "datasetName" := Some(JStr(datasetName)), "entityId" := Some(JStr(entityId)),
        "idType" := Str(idType), "metadataType" := Str(metadataType),
        "includeNullMetadataValues" := Bool(includeNullMetadataValues),
        "useCustomization" := Bool(useCustomization)]))
  }

  function SceneMetadataList(listId: string, datasetName: Option<string>, metadataType: Option<string>,
                             includeNullMetadataValues: Option<bool>, useCustomization: Option<bool>): (r: Request)
    ensures r.LocalError? <==> listId == ""
    ensures r.LocalError? ==> r == Missing("listId", "scene-metadata-list")
    ensures r.Send? ==> r.path == "scene-metadata-list"
    ensures r.Send? ==> Payload(r.payload, map[
      "listId" := Some(JStr(listId)), "datasetName" := Str(datasetName),
      "metadataType" := Str(metadataType),
      "includeNullMetadataValues" := Bool(includeNullMetadataValues),
      "useCustomization" := Bool(useCustomization)])
    ensures !r.SendWithoutBody?
  {
    if listId == "" then Missing("listId", "scene-metadata-list")
    else
      Send("scene-metadata-list", ObjectOf(map[
        "listId" := Some(JStr(listId)), "datasetName" := Str(datasetName),
        "metadataType" := Str(metadataType),
        "includeNullMetadataValues" := Bool(includeNullMetadataValues),
        "useCustomization" := Bool(useCustomization)]))
  }

  function SceneMetadataXml(datasetName: string, entityId: string, metadataType: Option<string>): (r: Request)
    ensures r.LocalError? <==> datasetName == "" || entityId == ""
    ensures datasetName == "" ==> r == Missing("datasetName", "scene-metadata-xml")
    ensures datasetName != "" && entityId == "" ==> r == Missing("entityId", "scene-metadata-xml")
    ensures r.Send? ==> r.path == "scene-metadata-xml"
    ensures r.Send? ==> Payload(r.payload, map[
      "datasetName" := Some(JStr(datasetName)), "entityId" := Some(JStr(entityId)),
      "metadataType" := Str(metadataType)])
    ensures !r.SendWithoutBody?
  {
    if datasetName == "" then Missing("datasetName", "scene-metadata-xml")
    else if entityId == "" then Missing("entityId", "scene-metadata-xml")
    else
      Send("scene-metadata-xml", ObjectOf(map[
        "datasetName" := Some(JStr(datasetName)), "entityId" := Some(JStr(entityId)),
        "metadataType" := Str(metadataType)]))
  }

  datatype SortCustomization = SortCustomization(fieldName: string, direction: string)

  /** The `sortCustomization` object: always exactly `field_name` and
      `direction`, even when they are empty strings. */
  function SortCustomizationJson(sc: SortCustomization): (j: JSON)
    ensures j.JObj? && KeysOf(j) == {"field_name", "direction"}
    ensures Member(j, "field_name") == Some(JStr(sc.fieldName))
    ensures Member(j, "direction") == Some(JStr(sc.direction))
  {
    JObj(map["field_name" := JStr(sc.fieldName), "direction" := JStr(sc.direction)])
  }

  /** The optional arguments of `scene-search`, in the order the source
      declares them. */
  datatype SceneSearchOptions = SceneSearchOptions(
    maxResults: Option<int>,
    startingNumber: Option<int>,
    metadataType: Option<string>,
    sortField: Option<string>,
    sortDirection: Option<string>,
    sortCustomization: Option<SortCustomization>,
    useCustomization: Option<bool>,
    sceneFilter: Option<JSON>,
    compareListName: Option<string>,
    bulkListName: Option<string>,
    orderListName: Option<string>,
    excludeListName: Option<string>,
    includeNullMetadataValues: Option<bool>)

  function SortCustomizationMember(o: Option<SortCustomization>): Option<JSON>
  {
    if o.Some? then Some(SortCustomizationJson(o.value)) else None
  }

  /** `scene-search`: its error message names the operation `sceneSearch`. */
  function SceneSearch(datasetName: string, o: SceneSearchOptions): (r: Request)
    ensures r.LocalError? <==> datasetName == ""
    ensures r.LocalError? ==> r == Missing("datasetName", "sceneSearch")
    ensures r.Send? ==> r.path == "scene-search"
    ensures r.Send? ==> Payload(r.payload, map[
      "datasetName" := Some(JStr(datasetName)),
      "maxResults" := Int(o.maxResults),
      "startingNumber" := Int(o.startingNumber),
      "metadataType" := Str(o.metadataType),
      "sortField" := Str(o.sortField),
      "sortDirection" := Str(o.sortDirection),
      "useCustomization" := Bool(o.useCustomization),
      "compareListName" := Str(o.compareListName),
      "bulkListName" := Str(o.bulkListName),
      "orderListName" := Str(o.orderListName),
      "excludeListName" := Str(o.excludeListName),
      "includeNullMetadataValues" := Bool(o.includeNullMetadataValues),
      "sortCustomization" := SortCustomizationMember(o.sortCustomization),
      "sceneFilter" := o.sceneFilter])
    ensures !r.SendWithoutBody?
  {
    if datasetName == "" then Missing("datasetName", "sceneSearch")
    else
      Send("scene-search", ObjectOf(map[
        "datasetName" := Some(JStr(datasetName)),
        "maxResults" := Int(o.maxResults),
        "startingNumber" := Int(o.startingNumber),
        "metadataType" := Str(o.metadataType),
        "sortField" := Str(o.sortField),
        "sortDirection" := Str(o.sortDirection),
        "useCustomization" := Bool(o.useCustomization),
        "compareListName" := Str(o.compareListName),
        "bulkListName" := Str(o.bulkListName),
        "orderListName" := Str(o.orderListName),
        "excludeListName" := Str(o.excludeListName),
        "includeNullMetadataValues" := Bool(o.includeNullMetadataValues),
        "sortCustomization" := SortCustomizationMember(o.sortCustomization),
        "sceneFilter" := o.sceneFilter]))
  }

  /** A time range; the time points are opaque values that the client's
      ISO 8601 formatter turns into text. */
  datatype TemporalFilter<Time> = TemporalFilter(start: Time, end: Time)

  /** The `temporalFilter` object: exactly `start` and `end`, each the
      formatted time point. */
  function TemporalFilterJson<Time>(tf: TemporalFilter<Time>, toIso: Time -> string): (j: JSON)
    ensures j.JObj? && KeysOf(j) == {"start", "end"}
    ensures Member(j, "start") == Some(JStr(toIso(tf.start)))
    ensures Member(j, "end") == Some(JStr(toIso(tf.end)))
  {
    JObj(map["start" := JStr(toIso(tf.start)), "end" := JStr(toIso(tf.end))])
  }

  function TemporalFilterMember<Time>(o: Option<TemporalFilter<Time>>, toIso: Time -> string): Option<JSON>
  {
    if o.Some? then Some(TemporalFilterJson(o.value, toIso)) else None
  }

  /** `scene-search-delete`; `toIso` stands for the client's
      `timeToISO8601UTC`, whose definition is not part of this model. */
  function SceneSearchDelete<Time>(datasetName: string, maxResults: Option<int>, startingNumber: Option<int>,
                                   sortField: Option<string>, sortDirection: Option<string>,
                                   temporalFilter: Option<TemporalFilter<Time>>,
                                   toIso: Time -> string): (r: Request)
    ensures r.LocalError? <==> datasetName == ""
    ensures r.LocalError? ==> r == Missing("datasetName", "sceneSearchDelete")
    ensures r.Send? ==> r.path == "scene-search-delete"
    ensures r.Send? ==> Payload(r.payload, map[
      "datasetName" := Some(JStr(datasetName)),
      "maxResults" := Int(maxResults), "startingNumber" := Int(startingNumber),
      "sortField" := Str(sortField), "sortDirection" := Str(sortDirection),
      "temporalFilter" := TemporalFilterMember(temporalFilter, toIso)])
    ensures !r.SendWithoutBody?
  {
    if datasetName == "" then Missing("datasetName", "sceneSearchDelete")
    else
      Send("scene-search-delete", ObjectOf(map[
        "datasetName" := Some(JStr(datasetName)),
        "maxResults" := Int(maxResults), "startingNumber" := Int(startingNumber),
        "sortField" := Str(sortField), "sortDirection" := Str(sortDirection),
        "temporalFilter" := TemporalFilterMember(temporalFilter, toIso)]))
  }

  /** The optional arguments of `scene-search-secondary`. */
  datatype SecondaryOptions = SecondaryOptions(
    maxResults: Option<int>,
    startingNumber: Option<int>,
    metadataType: Option<string>,
    sortField: Option<string>,
    sortDirection: Option<string>,
    compareListName: Option<string>,
    bulkListName: Option<string>,
    orderListName: Option<string>,
    excludeListName: Option<string>)

  /** `scene-search-secondary` checks both required strings together and
      reports them in one message. */
  function SceneSearchSecondary(entityId: string, datasetName: string, o: SecondaryOptions): (r: Request)
    ensures r.LocalError? <==> entityId == "" || datasetName == ""
    ensures r.LocalError? ==>
      r == LocalError(-1, "'entityId' and 'datasetName' are required for sceneSearchSecondary.")
    ensures r.Send? ==> r.path == "scene-search-secondary"
    ensures r.Send? ==> Payload(r.payload, map[
      "entityId" := Some(JStr(entityId)),
      "datasetName" := Some(JStr(datasetName)),
      "maxResults" := Int(o.maxResults),
      "startingNumber" := Int(o.startingNumber),
      "metadataType" := Str(o.metadataType),
      "sortField" := Str(o.sortField),
      "sortDirection" := Str(o.sortDirection),
      "compareListName" := Str(o.compareListName),
      "bulkListName" := Str(o.bulkListName),
      "orderListName" := Str(o.orderListName),
      "excludeListName" := Str(o.excludeListName)])
    ensures !r.SendWithoutBody?
  {
    if entityId == "" || datasetName == "" then
      LocalError(-1, "'entityId' and 'datasetName' are required for sceneSearchSecondary.")
    else
      Send("scene-search-secondary", ObjectOf(map[
        "entityId" := Some(JStr(entityId)),
        "datasetName" := Some(JStr(datasetName)),
        "maxResults" := Int(o.maxResults),
        "startingNumber" := Int(o.startingNumber),
        "metadataType" := Str(o.metadataType),
        "sortField" := Str(o.sortField),
        "sortDirection" := Str(o.sortDirection),
        "compareListName" := Str(o.compareListName),
        "bulkListName" := Str(o.bulkListName),
        "orderListName" := Str(o.orderListName),
        "excludeListName" := Str(o.excludeListName)]))
  }
}
