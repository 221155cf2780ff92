/** The download operations. `download-complete-proxied` and
    `download-request` loop over their lists, pushing one item per element
    and abandoning the whole call at the first invalid element; the rest are
    guarded insertions into a fresh request object. */
module DownloadApi {
  import opened Json
  import opened Requests

  /** A completed proxied download. */
  datatype ProxiedDownload = ProxiedDownload(downloadId: int, downloadedSize: int)

  /** The entry for one proxied download: exactly its id and its size. */
  function ProxiedEntry(d: ProxiedDownload): (j: JSON)
    ensures j.JObj? && KeysOf(j) == {"downloadId", "downloadedSize"}
    ensures Member(j, "downloadId") == Some(JInt(d.downloadId))
    ensures Member(j, "downloadedSize") == Some(JInt(d.downloadedSize))
  {
    JObj(map["downloadId" := JInt(d.downloadId), "downloadedSize" := JInt(d.downloadedSize)])
  }

  /** `download-complete-proxied`: an empty list is refused; otherwise
      `proxiedDownloads` holds one entry per download, in order. */
  method DownloadCompleteProxied(downloads: seq<ProxiedDownload>) returns (r: Request)
    ensures r.LocalError? <==> downloads == []
    ensures r.LocalError? ==>
      r == LocalError(-1, "'downloads' cannot be empty for download-complete-proxied.")
    ensures r.Send? ==> r.path == "download-complete-proxied"
    ensures r.Send? ==> r.payload.JObj? && KeysOf(r.payload) == {"proxiedDownloads"}
    ensures r.Send? ==>
      var items := r.payload.fields["proxiedDownloads"];
      items.JArr? && |items.items| == |downloads|
      && forall i :: 0 <= i < |downloads| ==> items.items[i] == ProxiedEntry(downloads[i])
    ensures !r.SendWithoutBody?
  {
    if downloads == [] {
      return LocalError(-1, "'downloads' cannot be empty for download-complete-proxied.");
    }
    var proxiedDownloads: seq<JSON> := [];
    for i := 0 to |downloads|
      invariant |proxiedDownloads| == i
      invariant forall j :: 0 <= j < i ==> proxiedDownloads[j] == ProxiedEntry(downloads[j])
    {
      var d := downloads[i];
      var entry := map["downloadId" := JInt(d.downloadId), "downloadedSize" := JInt(d.downloadedSize)];
      proxiedDownloads := proxiedDownloads + [JObj(entry)];
    }
    r := Send("download-complete-proxied", JObj(map["proxiedDownloads" := JArr(proxiedDownloads)]));
  }

  /** `download-eula`: an empty vector of codes is left out. */
  function DownloadEula(eulaCode: Option<string>, eulaCodes: seq<string>): (r: Request)
    ensures r.Send? && r.path == "download-eula"
    ensures Payload(r.payload, map["eulaCode" := Str(eulaCode), "eulaCodes" := NonEmptyStrs(eulaCodes)])
  {
    Send("download-eula", ObjectOf(map["eulaCode" := Str(eulaCode), "eulaCodes" := NonEmptyStrs(eulaCodes)]))
  }

  function DownloadLabels(downloadApplication: Option<string>): (r: Request)
    ensures r.Send? && r.path == "download-labels"
    ensures Payload(r.payload, map["downloadApplication" := Str(downloadApplication)])
    ensures r.payload == JNull <==> downloadApplication.None?
  {
    var fields := map["downloadApplication" := Str(downloadApplication)];
    ObjectOfNull(fields);
    Send("download-labels", ObjectOf(fields))
  }

  /** `download-options`; `entityIds` is a single string here. */
  function DownloadOptions(datasetName: string, entityIds: Option<string>, listId: Option<string>,
                           includeSecondaryFileGroups: Option<bool>): (r: Request)
    ensures r.LocalError? <==> datasetName == ""
    ensures r.LocalError? ==> r == Missing("datasetName", "download-options")
    ensures r.Send? ==> r.path == "download-options"
    ensures r.Send? ==> Payload(r.payload, map[
      "datasetName" := Some(JStr(datasetName)), "entityIds" := Str(entityIds),
      "listId" := Str(listId), "includeSecondaryFileGroups" := Bool(includeSecondaryFileGroups)])
    ensures !r.SendWithoutBody?
  {
    if datasetName == "" then Missing("datasetName", "download-options")
    else
      Send("download-options", ObjectOf(map[
        "datasetName" := Some(JStr(datasetName)), "entityIds" := Str(entityIds),
        "listId" := Str(listId), "includeSecondaryFileGroups" := Bool(includeSecondaryFileGroups)]))
  }

  /** `download-order-load` refuses only when both optionals are absent; a
      present but empty string is accepted and sent. */
  function DownloadOrderLoad(downloadLabel: Option<string>, downloadApplication: Option<string>): (r: Request)
    ensures r.LocalError? <==> downloadLabel.None? && downloadApplication.None?
    ensures r.LocalError? ==> r == LocalError(-1,
      "At least one of 'label' or 'downloadApplication' must be provided for download-order-load.")
    ensures r.Send? ==> r.path == "download-order-load"
    ensures r.Send? ==> Payload(r.payload, map["label" := Str(downloadLabel), "downloadApplication" := Str(downloadApplication)])
    ensures r.Send? ==> r.payload.JObj?
    ensures !r.SendWithoutBody?
  {
    if downloadLabel.None? && downloadApplication.None? then
      LocalError(-1, "At least one of 'label' or 'downloadApplication' must be provided for download-order-load.")
    else
      var fields := map["label" := Str(downloadLabel), "downloadApplication" := Str(downloadApplication)];
      ObjectOfPresent(fields, if downloadLabel.Some? then "label" else "downloadApplication");
      Send("download-order-load", ObjectOf(fields))
  }

  function DownloadOrderRemove(downloadLabel: string, downloadApplication: Option<string>): (r: Request)
    ensures r.LocalError? <==> downloadLabel == ""
    ensures r.LocalError? ==> r == Missing("label", "download-order-remove")
    ensures r.Send? ==> r.path == "download-order-remove"
    ensures r.Send? ==> Payload(r.payload, map["label" := Some(JStr(downloadLabel)), "downloadApplication" := Str(downloadApplication)])
    ensures !r.SendWithoutBody?
  {
    if downloadLabel == "" then Missing("label", "download-order-remove")
    else
      Send("download-order-remove", ObjectOf(map["label" := Some(JStr(downloadLabel)),
                                                 "downloadApplication" := Str(downloadApplication)]))
  }

  /** `download-remove` refuses every id that is not positive. */
  function DownloadRemove(downloadId: int): (r: Request)
    ensures r.LocalError? <==> downloadId <= 0
    ensures r.LocalError? ==> r == LocalError(-1, "'downloadId' must be a positive integer for download-remove.")
    ensures r.Send? ==> r.path == "download-remove" && KeysOf(r.payload) == {"downloadId"}
    ensures r.Send? ==> Member(r.payload, "downloadId") == Some(JInt(downloadId))
    ensures !r.SendWithoutBody?
  {
    if downloadId <= 0 then LocalError(-1, "'downloadId' must be a positive integer for download-remove.")
    else Send("download-remove", JObj(map["downloadId" := JInt(downloadId)]))
  }

  /** A scene to download; `entityId` is required. */
  datatype Download = Download(entityId: string, productId: Option<string>, dataUse: Option<string>,
                               downloadLabel: Option<string>)

  /** A file to download by path; `datasetName` is required. */
  datatype FilepathDownload = FilepathDownload(datasetName: string, productCode: Option<string>,
                                               dataPath: Option<string>, dataUse: Option<string>,
                                               downloadLabel: Option<string>)

  /** File groups to download; `datasetName` is required. */
  datatype FilegroupDownload = FilegroupDownload(datasetName: string, fileGroups: Option<seq<string>>,
                                                 listId: Option<string>, dataUse: Option<string>,
                                                 downloadLabel: Option<string>)

  function DownloadFields(d: Download): Fields
  {
    map["entityId" := Some(JStr(d.entityId)), "productId" := Str(d.productId),
        "dataUse" := Str(d.dataUse), "label" := Str(d.downloadLabel)]
  }

  function FilepathFields(f: FilepathDownload): Fields
  {
    map["datasetName" := Some(JStr(f.datasetName)), "productCode" := Str(f.productCode),
        "dataPath" := Str(f.dataPath), "dataUse" := Str(f.dataUse), "label" := Str(f.downloadLabel)]
  }

  function FilegroupFields(g: FilegroupDownload): Fields
  {
    map["datasetName" := Some(JStr(g.datasetName)), "fileGroups" := Strs(g.fileGroups),
        "listId" := Str(g.listId), "dataUse" := Str(g.dataUse), "label" := Str(g.downloadLabel)]
  }

  /** The items of each list, one per element and in order. */
  function DownloadItem(d: Download): JSON
  {
    ObjectOf(DownloadFields(d))
  }

  function DownloadItems(ds: seq<Download>): seq<JSON>
  {
    Items(ds, DownloadItem)
  }

  function FilepathItem(f: FilepathDownload): JSON
  {
    ObjectOf(FilepathFields(f))
  }

  function FilepathItems(fs: seq<FilepathDownload>): seq<JSON>
  {
    Items(fs, FilepathItem)
  }

  function FilegroupItem(g: FilegroupDownload): JSON
  {
    ObjectOf(FilegroupFields(g))
  }

  function FilegroupItems(gs: seq<FilegroupDownload>): seq<JSON>
  {
    Items(gs, FilegroupItem)
  }

  function ArrayMember(o: Option<seq<JSON>>): Option<JSON>
  {
    if o.Some? then Some(JArr(o.value)) else None
  }

  predicate DownloadsValid(ds: Option<seq<Download>>)
  {
    ds.Some? ==> forall i :: 0 <= i < |ds.value| ==> ds.value[i].entityId != ""
  }

  predicate FilepathsValid(fs: Option<seq<FilepathDownload>>)
  {
    fs.Some? ==> forall i :: 0 <= i < |fs.value| ==> fs.value[i].datasetName != ""
  }

  predicate FilegroupsValid(gs: Option<seq<FilegroupDownload>>)
  {
    gs.Some? ==> forall i :: 0 <= i < |gs.value| ==> gs.value[i].datasetName != ""
  }

  function Map<A, B>(o: Option<A>, f: A -> B): Option<B>
  {
    if o.Some? then Some(f(o.value)) else None
  }

  /** The loop over `downloads`: stops at the first element with an empty
      `entityId`, otherwise yields one item per element. */
  method DownloadsArray(ds: seq<Download>) returns (ok: bool, items: seq<JSON>)
    ensures ok <==> DownloadsValid(Some(ds))
    ensures ok ==> items == DownloadItems(ds)
  {
    items := [];
    for i := 0 to |ds|
      invariant forall j :: 0 <= j < i ==> ds[j].entityId != ""
      invariant items == Items(ds[..i], DownloadItem)
    {
      var d := ds[i];
      if d.entityId == "" {
        return false, items;
      }
      ItemsSnoc(ds, i, DownloadItem);
      items := items + [DownloadItem(d)];
    }
    assert ds[..|ds|] == ds;
    ok := true;
  }

  /** The loop over `dataPaths`. */
  method FilepathsArray(fs: seq<FilepathDownload>) returns (ok: bool, items: seq<JSON>)
    ensures ok <==> FilepathsValid(Some(fs))
    ensures ok ==> items == FilepathItems(fs)
  {
    items := [];
    for i := 0 to |fs|
      invariant forall j :: 0 <= j < i ==> fs[j].datasetName != ""
      invariant items == Items(fs[..i], FilepathItem)
    {
      var f := fs[i];
      if f.datasetName == "" {
        return false, items;
      }
      ItemsSnoc(fs, i, FilepathItem);
      items := items + [FilepathItem(f)];
    }
    assert fs[..|fs|] == fs;
    ok := true;
  }

  /** The loop over `dataGroups`. */
  method FilegroupsArray(gs: seq<FilegroupDownload>) returns (ok: bool, items: seq<JSON>)
    ensures ok <==> FilegroupsValid(Some(gs))
    ensures ok ==> items == FilegroupItems(gs)
  {
    items := [];
    for i := 0 to |gs|
      invariant forall j :: 0 <= j < i ==> gs[j].datasetName != ""
      invariant items == Items(gs[..i], FilegroupItem)
    {
      var g := gs[i];
      if g.datasetName == "" {
        return false, items;
      }
      ItemsSnoc(gs, i, FilegroupItem);
      items := items + [FilegroupItem(g)];
    }
    assert gs[..|gs|] == gs;
    ok := true;
  }

  /** `download-request`: the three lists are checked in the order
      downloads, data paths, data groups; the first invalid element of any
      of them abandons the call. Otherwise each given list is sent as an
      array, even an empty one, with one item per element in order. */
  method DownloadRequest(configurationCode: Option<string>, downloadApplication: Option<string>,
                         downloads: Option<seq<Download>>, dataPaths: Option<seq<FilepathDownload>>,
                         downloadLabel: Option<string>, systemId: Option<string>,
                         dataGroups: Option<seq<FilegroupDownload>>) returns (r: Request)
    ensures r.LocalError? <==>
      !(DownloadsValid(downloads) && FilepathsValid(dataPaths) && FilegroupsValid(dataGroups))
    ensures !DownloadsValid(downloads) ==> r == LocalError(-1, "Download.entityId is required!")
    ensures DownloadsValid(downloads) && !FilepathsValid(dataPaths) ==>
      r == LocalError(-1, "FilepathDownload.datasetName is required!")
    ensures DownloadsValid(downloads) && FilepathsValid(dataPaths) && !FilegroupsValid(dataGroups) ==>
      r == LocalError(-1, "FilegroupDownload.datasetName is required!")
    ensures r.Send? ==> r.path == "download-request"
    ensures r.Send? ==> Payload(r.payload, map[
      "configurationCode" := Str(configurationCode),
      "downloadApplication" := Str(downloadApplication),
      "label" := Str(downloadLabel),
      "systemId" := Str(systemId),
      "downloads" := ArrayMember(Map(downloads, DownloadItems)),
      "dataPaths" := ArrayMember(Map(dataPaths, FilepathItems)),
      "dataGroups" := ArrayMember(Map(dataGroups, FilegroupItems))])
    ensures !r.SendWithoutBody?
  {
    var downloadsItems: Option<seq<JSON>> := None;
    if downloads.Some? {
      var ok, items := DownloadsArray(downloads.value);
      if !ok {
        return LocalError(-1, "Download.entityId is required!");
      }
      downloadsItems := Some(items);
    }
    var dataPathsItems: Option<seq<JSON>> := None;
    if dataPaths.Some? {
      var ok, items := FilepathsArray(dataPaths.value);
      if !ok {
        return LocalError(-1, "FilepathDownload.datasetName is required!");
      }
      dataPathsItems := Some(items);
    }
    var dataGroupsItems: Option<seq<JSON>> := None;
    if dataGroups.Some? {
      var ok, items := FilegroupsArray(dataGroups.value);
      if !ok {
        return LocalError(-1, "FilegroupDownload.datasetName is required!");
      }
      dataGroupsItems := Some(items);
    }
    r := Send("download-request", ObjectOf(map[
      "configurationCode" := Str(configurationCode),
      "downloadApplication" := Str(downloadApplication),
      "label" := Str(downloadLabel),
      "systemId" := Str(systemId),
      "downloads" := ArrayMember(downloadsItems),
      "dataPaths" := ArrayMember(dataPathsItems),
      "dataGroups" := ArrayMember(dataGroupsItems)]));
  }

  /** Each item of a download carries `entityId` and exactly the optional
      keys that are set. */
  lemma DownloadItemShape(d: Download)
    ensures ObjectOf(DownloadFields(d)).JObj?
    ensures Member(ObjectOf(DownloadFields(d)), "entityId") == Some(JStr(d.entityId))
    ensures Member(ObjectOf(DownloadFields(d)), "productId") == Str(d.productId)
    ensures Member(ObjectOf(DownloadFields(d)), "dataUse") == Str(d.dataUse)
    ensures Member(ObjectOf(DownloadFields(d)), "label") == Str(d.downloadLabel)
    ensures KeysOf(ObjectOf(DownloadFields(d))) <= {"entityId", "productId", "dataUse", "label"}
  {
    var j := ObjectOf(DownloadFields(d));
    assert Member(j, "entityId") == Lookup(DownloadFields(d), "entityId");
    CarriesKeys(j, DownloadFields(d));
  }

  function DownloadRetrieve(downloadLabel: Option<string>, downloadApplication: Option<string>): (r: Request)
    ensures r.Send? && r.path == "download-retrieve"
    ensures Payload(r.payload, map["label" := Str(downloadLabel), "downloadApplication" := Str(downloadApplication)])
  {
    Send("download-retrieve", ObjectOf(map["label" := Str(downloadLabel), "downloadApplication" := Str(downloadApplication)]))
  }

  function DownloadSearch(activeOnly: Option<bool>, downloadLabel: Option<string>, downloadApplication: Option<string>,
                          includeArchived: Option<bool>): (r: Request)
    ensures r.Send? && r.path == "download-search"
    ensures Payload(r.payload, map[
      "activeOnly" := Bool(activeOnly), "label" := Str(downloadLabel),
      "downloadApplication" := Str(downloadApplication), "includeArchived" := Bool(includeArchived)])
  {
    Send("download-search", ObjectOf(map[
      "activeOnly" := Bool(activeOnly), "label" := Str(downloadLabel),
      "downloadApplication" := Str(downloadApplication), "includeArchived" := Bool(includeArchived)]))
  }

  /** `download-summary` checks `downloadApplication` before `label`. */
  function DownloadSummary(downloadApplication: string, downloadLabel: string, sendEmail: Option<bool>): (r: Request)
    ensures r.LocalError? <==> downloadApplication == "" || downloadLabel == ""
    ensures downloadApplication == "" ==> r == Missing("downloadApplication", "download-summary")
    ensures downloadApplication != "" && downloadLabel == "" ==> r == Missing("label", "download-summary")
    ensures r.Send? ==> r.path == "download-summary"
    ensures r.Send? ==> Payload(r.payload, map[
      "downloadApplication" := Some(JStr(downloadApplication)), "label" := Some(JStr(downloadLabel)),
      "sendEmail" := Bool(sendEmail)])
    ensures !r.SendWithoutBody?
  {
    if downloadApplication == "" then Missing("downloadApplication", "download-summary")
    else if downloadLabel == "" then Missing("label", "download-summary")
    else
      Send("download-summary", ObjectOf(map[
        "downloadApplication" := Some(JStr(downloadApplication)), "label" := Some(JStr(downloadLabel)),
        "sendEmail" := Bool(sendEmail)]))
  }
}
