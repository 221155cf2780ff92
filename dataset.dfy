/** The dataset operations: local parameter checks followed by the
    guarded construction of the request object. */
module DatasetApi {
  import opened Json
  import opened Requests

  /** `dataset`: a dataset is named by its name, its id or both. */
  function Dataset(datasetName: string, datasetId: string): (r: Request)
    ensures r.LocalError? <==> datasetName == "" && datasetId == ""
    ensures r.LocalError? ==>
      r.code == -1 && r.message == "At least one of 'datasetName' or 'datasetId' must be provided."
    ensures r.Send? ==> r.path == "dataset"
    ensures r.Send? ==> Payload(r.payload, map["datasetName" := NonEmptyStr(datasetName),
                                                "datasetId" := NonEmptyStr(datasetId)])
    ensures r.Send? ==> r.payload.JObj?
    ensures !r.SendWithoutBody?
  {
    if datasetName == "" && datasetId == "" then
      LocalError(-1, "At least one of 'datasetName' or 'datasetId' must be provided.")
    else
      var fields := map["datasetName" := NonEmptyStr(datasetName), "datasetId" := NonEmptyStr(datasetId)];
      ObjectOfPresent(fields, if datasetName != "" then "datasetName" else "datasetId");
      Send("dataset", ObjectOf(fields))
  }

  function DatasetBrowse(datasetId: string): (r: Request)
    ensures r.LocalError? <==> datasetId == ""
    ensures r.LocalError? ==> r == Missing("datasetId", "dataset-browse")
    ensures r.Send? ==> r == Send("dataset-browse", JObj(map["datasetId" := JStr(datasetId)]))
  {
    RequireOne("dataset-browse", "datasetId", datasetId)
  }

  /** `dataset-bulk-products` has no check: an empty name is left out, and
      the payload is then `null`. */
  function DatasetBulkProducts(datasetName: string): (r: Request)
    ensures r.Send? && r.path == "dataset-bulk-products"
    ensures Payload(r.payload, map["datasetName" := NonEmptyStr(datasetName)])
    ensures r.payload == JNull <==> datasetName == ""
  {
    var fields := map["datasetName" := NonEmptyStr(datasetName)];
    ObjectOfNull(fields);
    Send("dataset-bulk-products", ObjectOf(fields))
  }

  function DatasetCatalogs(): (r: Request)
    ensures r.SendWithoutBody? && r.path == "dataset-catalogs"
  {
    SendWithoutBody("dataset-catalogs")
  }

  function DatasetCategories(catalog: Option<string>, includeMessages: Option<bool>,
                             publicOnly: Option<bool>, useCustomization: Option<bool>,
                             parentId: Option<string>, datasetFilter: Option<string>): (r: Request)
    ensures r.Send? && r.path == "dataset-categories"
    ensures Payload(r.payload, map[
      "catalog" := Str(catalog), "includeMessages" := Bool(includeMessages),
      "publicOnly" := Bool(publicOnly), "useCustomization" := Bool(useCustomization),
      "parentId" := Str(parentId), "datasetFilter" := Str(datasetFilter)])
  {
    Send("dataset-categories", ObjectOf(map[
      "catalog" := Str(catalog), "includeMessages" := Bool(includeMessages),
      "publicOnly" := Bool(publicOnly), "useCustomization" := Bool(useCustomization),
      "parentId" := Str(parentId), "datasetFilter" := Str(datasetFilter)]))
  }

  /** Empty vectors are left out of `dataset-clear-customization`. */
  function DatasetClearCustomization(datasetName: Option<string>, metadataType: seq<string>,
                                     fileGroupIds: seq<string>): (r: Request)
    ensures r.Send? && r.path == "dataset-clear-customization"
    ensures Payload(r.payload, map[
      "datasetName" := Str(datasetName), "metadataType" := NonEmptyStrs(metadataType),
      "fileGroupIds" := NonEmptyStrs(fileGroupIds)])
  {
    Send("dataset-clear-customization", ObjectOf(map[
      "datasetName" := Str(datasetName), "metadataType" := NonEmptyStrs(metadataType),
      "fileGroupIds" := NonEmptyStrs(fileGroupIds)]))
  }

  function DatasetCoverage(datasetName: string): (r: Request)
    ensures r.LocalError? <==> datasetName == ""
    ensures r.LocalError? ==> r == Missing("datasetName", "dataset-coverage")
    ensures r.Send? ==> r == Send("dataset-coverage", JObj(map["datasetName" := JStr(datasetName)]))
  {
    RequireOne("dataset-coverage", "datasetName", datasetName)
  }

  function DatasetDownloadOptions(datasetName: string, sceneFilter: Option<JSON>): (r: Request)
    ensures r.LocalError? <==> datasetName == ""
    ensures r.LocalError? ==> r == Missing("datasetName", "dataset-download-options")
    ensures r.Send? ==> r.path == "dataset-download-options"
    ensures r.Send? ==> Payload(r.payload, map["datasetName" := Some(JStr(datasetName)),
                                                "sceneFilter" := sceneFilter])
    ensures !r.SendWithoutBody?
  {
    if datasetName == "" then Missing("datasetName", "dataset-download-options")
    else
      Send("dataset-download-options", ObjectOf(map["datasetName" := Some(JStr(datasetName)),
                                                    "sceneFilter" := sceneFilter]))
  }

  function DatasetFileGroups(datasetName: string): (r: Request)
    ensures r.LocalError? <==> datasetName == ""
    ensures r.LocalError? ==> r == Missing("datasetName", "dataset-file-groups")
    ensures r.Send? ==> r == Send("dataset-file-groups", JObj(map["datasetName" := JStr(datasetName)]))
  {
    RequireOne("dataset-file-groups", "datasetName", datasetName)
  }

  function DatasetFilters(datasetName: string): (r: Request)
    ensures r.LocalError? <==> datasetName == ""
    ensures r.LocalError? ==> r == Missing("datasetName", "dataset-filters")
    ensures r.Send? ==> r == Send("dataset-filters", JObj(map["datasetName" := JStr(datasetName)]))
  {
    RequireOne("dataset-filters", "datasetName", datasetName)
  }

  function DatasetGetCustomization(datasetName: string): (r: Request)
    ensures r.LocalError? <==> datasetName == ""
    ensures r.LocalError? ==> r == Missing("datasetName", "dataset-get-customization")
    ensures r.Send? ==> r == Send("dataset-get-customization", JObj(map["datasetName" := JStr(datasetName)]))
  {
    RequireOne("dataset-get-customization", "datasetName", datasetName)
  }

  function DatasetGetCustomizations(datasetNames: seq<string>, metadataType: seq<string>): (r: Request)
    ensures r.Send? && r.path == "dataset-get-customizations"
    ensures Payload(r.payload, map["datasetNames" := NonEmptyStrs(datasetNames),
                                   "metadataType" := NonEmptyStrs(metadataType)])
    ensures r.payload == JNull <==> datasetNames == [] && metadataType == []
  {
    var fields := map["datasetNames" := NonEmptyStrs(datasetNames),
                      "metadataType" := NonEmptyStrs(metadataType)];
    var j := ObjectOf(fields);
    assert j == JNull ==> Member(j, "datasetNames").None? && Member(j, "metadataType").None?;
    assert j != JNull ==> exists k :: k in j.fields && Member(j, k).Some?;
    Send("dataset-get-customizations", j)
  }

  function DatasetMessages(catalog: Option<string>, datasetName: Option<string>,
                           datasetNames: seq<string>): (r: Request)
    ensures r.Send? && r.path == "dataset-messages"
    ensures Payload(r.payload, map["catalog" := Str(catalog), "datasetName" := Str(datasetName),
                                   "datasetNames" := NonEmptyStrs(datasetNames)])
  {
    Send("dataset-messages", ObjectOf(map["catalog" := Str(catalog), "datasetName" := Str(datasetName),
                                          "datasetNames" := NonEmptyStrs(datasetNames)]))
  }

  function DatasetMetadata(datasetName: string): (r: Request)
    ensures r.LocalError? <==> datasetName == ""
    ensures r.LocalError? ==> r == Missing("datasetName", "dataset-metadata")
    ensures r.Send? ==> r == Send("dataset-metadata", JObj(map["datasetName" := JStr(datasetName)]))
  {
    RequireOne("dataset-metadata", "datasetName", datasetName)
  }

  function DatasetOrderProducts(datasetName: string): (r: Request)
    ensures r.LocalError? <==> datasetName == ""
    ensures r.LocalError? ==> r == Missing("datasetName", "dataset-order-products")
    ensures r.Send? ==> r == Send("dataset-order-products", JObj(map["datasetName" := JStr(datasetName)]))
  {
    RequireOne("dataset-order-products", "datasetName", datasetName)
  }

  /** The optional arguments of `dataset-search`, in the order the source
      declares them. */
  datatype SearchOptions = SearchOptions(
    catalog: Option<string>,
    categoryId: Option<string>,
    datasetName: Option<string>,
    includeMessages: Option<bool>,
    publicOnly: Option<bool>,
    includeUnknownSpatial: Option<bool>,
    temporalFilter: Option<JSON>,
    spatialFilter: Option<JSON>,
    sortDirection: Option<string>,
    sortField: Option<string>,
    useCustomization: Option<bool>)

  function DatasetSearch(o: SearchOptions): (r: Request)
    ensures r.Send? && r.path == "dataset-search"
    ensures Payload(r.payload, map[
      "catalog" := Str(o.catalog),
      "categoryId" := Str(o.categoryId),
      "datasetName" := Str(o.datasetName),
      "includeMessages" := Bool(o.includeMessages),
      "publicOnly" := Bool(o.publicOnly),
      "includeUnknownSpatial" := Bool(o.includeUnknownSpatial),
      "temporalFilter" := o.temporalFilter,
      "spatialFilter" := o.spatialFilter,
      "sortDirection" := Str(o.sortDirection),
      "sortField" := Str(o.sortField),
      "useCustomization" := Bool(o.useCustomization)])
  {
    Send("dataset-search", ObjectOf(map[
      "catalog" := Str(o.catalog),
      "categoryId" := Str(o.categoryId),
      "datasetName" := Str(o.datasetName),
      "includeMessages" := Bool(o.includeMessages),
      "publicOnly" := Bool(o.publicOnly),
      "includeUnknownSpatial" := Bool(o.includeUnknownSpatial),
      "temporalFilter" := o.temporalFilter,
      "spatialFilter" := o.spatialFilter,
      "sortDirection" := Str(o.sortDirection),
      "sortField" := Str(o.sortField),
      "useCustomization" := Bool(o.useCustomization)]))
  }

  /** `dataset-set-customization` takes its metadata, search sort and file
      groups as ready-made JSON and copies them verbatim. */
  function DatasetSetCustomization(datasetName: string, excluded: Option<bool>, metadata: Option<JSON>,
                                   searchSort: Option<JSON>, fileGroups: Option<JSON>): (r: Request)
    ensures r.LocalError? <==> datasetName == ""
    ensures r.LocalError? ==> r == Missing("datasetName", "dataset-set-customization")
    ensures r.Send? ==> r.path == "dataset-set-customization"
    ensures r.Send? ==> Payload(r.payload, map[
      "datasetName" := Some(JStr(datasetName)), "excluded" := Bool(excluded),
      "metadata" := metadata, "searchSort" := searchSort, "fileGroups" := fileGroups])
    ensures !r.SendWithoutBody?
  {
    if datasetName == "" then Missing("datasetName", "dataset-set-customization")
    else
      Send("dataset-set-customization", ObjectOf(map[
        "datasetName" := Some(JStr(datasetName)), "excluded" := Bool(excluded),
        "metadata" := metadata, "searchSort" := searchSort, "fileGroups" := fileGroups]))
  }
}
