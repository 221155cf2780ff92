/** `datasetCustomizationToJson` and `datasetSetCustomizations`: the
    serialiser of dataset customizations, which prunes empty leaves, items,
    arrays and objects at every level, and the request that groups the
    surviving entries by dataset name. */
module DatasetCustomization {
  import opened Json
  import opened Requests

  /** One metadata field setting; a negative sort order means "unset". */
  datatype MetadataField = MetadataField(id: string, sortOrder: int)

  /** One search-sort setting. */
  datatype SortField = SortField(id: string, direction: string)

  /** The customization of one dataset. The metadata and the file groups are
      ordered maps in the source; their iteration order does not show in the
      resulting JSON objects. */
  datatype Customization = Customization(
    datasetName: string,
    excluded: Option<bool>,
    metadata: map<string, seq<MetadataField>>,
    searchSort: seq<SortField>,
    fileGroups: map<string, seq<string>>)

  /** The value of a guarded item, as a sequence of zero or one elements. */
  function Kept(o: Option<JSON>): seq<JSON>
  {
    if o.Some? then [o.value] else []
  }

  function SortOrder(m: MetadataField): Option<JSON>
  {
    if m.sortOrder >= 0 then Some(JInt(m.sortOrder)) else None
  }

  /** A metadata item: `id` when non-empty, `sortOrder` when not negative;
      an item with neither is dropped. */
  function MetadataItem(m: MetadataField): Option<JSON>
  {
    var e := ObjectOf(map["id" := NonEmptyStr(m.id), "sortOrder" := SortOrder(m)]);
    if e == JNull then None else Some(e)
  }

  /** The array built for one metadata key, item by item in list order. */
  function MetadataItems(list: seq<MetadataField>): seq<JSON>
  {
    if list == [] then []
    else MetadataItems(list[..|list| - 1]) + Kept(MetadataItem(list[|list| - 1]))
  }

  /** The metadata object: a key survives only when its array is non-empty. */
  function MetadataJson(md: map<string, seq<MetadataField>>): map<string, JSON>
  {
    map k | k in md && MetadataItems(md[k]) != [] :: JArr(MetadataItems(md[k]))
  }

  /** A search-sort item: `id` and `direction` when non-empty; an item with
      neither is dropped. */
  function SortItem(s: SortField): Option<JSON>
  {
    var e := ObjectOf(map["id" := NonEmptyStr(s.id), "direction" := NonEmptyStr(s.direction)]);
    if e == JNull then None else Some(e)
  }

  function SortItems(list: seq<SortField>): seq<JSON>
  {
    if list == [] then []
    else SortItems(list[..|list| - 1]) + Kept(SortItem(list[|list| - 1]))
  }

  /** The file-groups object: a group survives only with a non-empty list. */
  function FileGroupsJson(fg: map<string, seq<string>>): map<string, JSON>
  {
    map g | g in fg && fg[g] != [] :: StrArr(fg[g])
  }

  function NonEmptyObject(m: map<string, JSON>): Option<JSON>
  {
    if |m| == 0 then None else Some(JObj(m))
  }

  function NonEmptyArray(s: seq<JSON>): Option<JSON>
  {
    if s == [] then None else Some(JArr(s))
  }

  /** The candidate members of a customization entry. */
  function EntryFields(dc: Customization): Fields
  {
    map["excluded" := Bool(dc.excluded),
        "metadata" := NonEmptyObject(MetadataJson(dc.metadata)),
        "search_sort" := NonEmptyArray(SortItems(dc.searchSort)),
        "fileGroups" := NonEmptyObject(FileGroupsJson(dc.fileGroups))]
  }

  /** The entry `datasetCustomizationToJson` returns. */
  function Entry(dc: Customization): JSON
  {
    ObjectOf(EntryFields(dc))
  }

  /** A metadata item is dropped exactly when it has neither an id nor a
      sort order, and otherwise holds each of them exactly when it is set. */
  lemma MetadataItemShape(m: MetadataField)
    ensures MetadataItem(m).None? <==> m.id == "" && m.sortOrder < 0
    ensures MetadataItem(m).Some? ==>
      Member(MetadataItem(m).value, "id") == NonEmptyStr(m.id)
      && Member(MetadataItem(m).value, "sortOrder") == SortOrder(m)
      && KeysOf(MetadataItem(m).value) <= {"id", "sortOrder"}
      && NoEmptyContainer(MetadataItem(m).value)
  {
    var fields := map["id" := NonEmptyStr(m.id), "sortOrder" := SortOrder(m)];
    var e := ObjectOf(fields);
    assert Member(e, "id") == NonEmptyStr(m.id);
    assert Member(e, "sortOrder") == SortOrder(m);
    if e != JNull {
      CarriesKeys(e, fields);
      CarriesNoEmptyContainer(e, fields);
    }
  }

  /** A search-sort item is dropped exactly when both its strings are
      empty, and otherwise holds each non-empty one. */
  lemma SortItemShape(s: SortField)
    ensures SortItem(s).None? <==> s.id == "" && s.direction == ""
    ensures SortItem(s).Some? ==>
      Member(SortItem(s).value, "id") == NonEmptyStr(s.id)
      && Member(SortItem(s).value, "direction") == NonEmptyStr(s.direction)
      && KeysOf(SortItem(s).value) <= {"id", "direction"}
      && NoEmptyContainer(SortItem(s).value)
  {
    var fields := map["id" := NonEmptyStr(s.id), "direction" := NonEmptyStr(s.direction)];
    var e := ObjectOf(fields);
    assert Member(e, "id") == NonEmptyStr(s.id);
    assert Member(e, "direction") == NonEmptyStr(s.direction);
    if e != JNull {
      CarriesKeys(e, fields);
      CarriesNoEmptyContainer(e, fields);
    }
  }

  /** The metadata array is empty exactly when every item is dropped. */
  lemma {:induction false} MetadataItemsEmpty(list: seq<MetadataField>)
    ensures MetadataItems(list) == [] <==>
      forall i :: 0 <= i < |list| ==> list[i].id == "" && list[i].sortOrder < 0
  {
    if list != [] {
      var init := list[..|list| - 1];
      MetadataItemsEmpty(init);
      MetadataItemShape(list[|list| - 1]);
      assert forall i :: 0 <= i < |init| ==> init[i] == list[i];
    }
  }

  /** No element of the metadata array holds an empty container, and the
      array is never longer than the list it comes from. */
  lemma {:induction false} MetadataItemsPruned(list: seq<MetadataField>)
    ensures |MetadataItems(list)| <= |list|
    ensures forall i :: 0 <= i < |MetadataItems(list)| ==> NoEmptyContainer(MetadataItems(list)[i])
  {
    if list != [] {
      MetadataItemsPruned(list[..|list| - 1]);
      MetadataItemShape(list[|list| - 1]);
    }
  }

  /** The search-sort array is empty exactly when every item is dropped. */
  lemma {:induction false} SortItemsEmpty(list: seq<SortField>)
    ensures SortItems(list) == [] <==>
      forall i :: 0 <= i < |list| ==> list[i].id == "" && list[i].direction == ""
  {
    if list != [] {
      var init := list[..|list| - 1];
      SortItemsEmpty(init);
      SortItemShape(list[|list| - 1]);
      assert forall i :: 0 <= i < |init| ==> init[i] == list[i];
    }
  }

  lemma {:induction false} SortItemsPruned(list: seq<SortField>)
    ensures |SortItems(list)| <= |list|
    ensures forall i :: 0 <= i < |SortItems(list)| ==> NoEmptyContainer(SortItems(list)[i])
  {
    if list != [] {
      SortItemsPruned(list[..|list| - 1]);
      SortItemShape(list[|list| - 1]);
    }
  }

  /** Each member of an entry is the one its table describes. */
  lemma EntryMember(dc: Customization, key: string)
    ensures Member(Entry(dc), key) == Lookup(EntryFields(dc), key)
  {
  }

  lemma MetadataJsonPruned(md: map<string, seq<MetadataField>>)
    ensures NonEmptyObject(MetadataJson(md)).Some? ==> NoEmptyContainer(NonEmptyObject(MetadataJson(md)).value)
  {
    var m := MetadataJson(md);
    forall k | k in m ensures NoEmptyContainer(m[k]) {
      MetadataItemsPruned(md[k]);
    }
  }

  lemma FileGroupsJsonPruned(fg: map<string, seq<string>>)
    ensures NonEmptyObject(FileGroupsJson(fg)).Some? ==> NoEmptyContainer(NonEmptyObject(FileGroupsJson(fg)).value)
  {
    var m := FileGroupsJson(fg);
    forall g | g in m ensures NoEmptyContainer(m[g]) {
      assert StrArr(fg[g]).items[0] == JStr(fg[g][0]);
    }
  }

  lemma SortArrayPruned(list: seq<SortField>)
    ensures NonEmptyArray(SortItems(list)).Some? ==> NoEmptyContainer(NonEmptyArray(SortItems(list)).value)
  {
    SortItemsPruned(list);
  }

  /** The entry never holds an empty array or object at any level. */
  lemma EntryPruned(dc: Customization)
    ensures NoEmptyContainer(Entry(dc))
  {
    var fields := EntryFields(dc);
    forall k | k in fields && fields[k].Some? ensures NoEmptyContainer(fields[k].value) {
      if k == "metadata" {
        MetadataJsonPruned(dc.metadata);
      } else if k == "search_sort" {
        SortArrayPruned(dc.searchSort);
      } else if k == "fileGroups" {
        FileGroupsJsonPruned(dc.fileGroups);
      }
    }
    CarriesNoEmptyContainer(Entry(dc), fields);
  }

  /** `excluded` is copied exactly when it is set, and the entry has no
      keys besides the four it is built from. */
  lemma EntryExcluded(dc: Customization)
    ensures Member(Entry(dc), "excluded") == Bool(dc.excluded)
    ensures KeysOf(Entry(dc)) <= {"excluded", "metadata", "search_sort", "fileGroups"}
  {
    EntryMember(dc, "excluded");
    CarriesKeys(Entry(dc), EntryFields(dc));
  }

  /** `metadata` is present exactly when some metadata item survives. */
  lemma EntryMetadata(dc: Customization)
    ensures Member(Entry(dc), "metadata").Some? <==>
      exists k, i :: k in dc.metadata && 0 <= i < |dc.metadata[k]|
                     && (dc.metadata[k][i].id != "" || dc.metadata[k][i].sortOrder >= 0)
  {
    EntryMember(dc, "metadata");
    var md := MetadataJson(dc.metadata);
    if exists k, i :: k in dc.metadata && 0 <= i < |dc.metadata[k]|
                      && (dc.metadata[k][i].id != "" || dc.metadata[k][i].sortOrder >= 0) {
      var k, i :| k in dc.metadata && 0 <= i < |dc.metadata[k]|
                 && (dc.metadata[k][i].id != "" || dc.metadata[k][i].sortOrder >= 0);
      MetadataItemsEmpty(dc.metadata[k]);
      assert k in md;
    } else {
      forall k | k in dc.metadata ensures k !in md {
        MetadataItemsEmpty(dc.metadata[k]);
      }
      assert md == map[];
    }
  }

  /** `search_sort` is present exactly when some search-sort item survives. */
  lemma EntrySearchSort(dc: Customization)
    ensures Member(Entry(dc), "search_sort").Some? <==>
      exists i :: 0 <= i < |dc.searchSort| && (dc.searchSort[i].id != "" || dc.searchSort[i].direction != "")
  {
    EntryMember(dc, "search_sort");
    SortItemsEmpty(dc.searchSort);
  }

  /** `fileGroups` is present exactly when some group has a product. */
  lemma EntryFileGroups(dc: Customization)
    ensures Member(Entry(dc), "fileGroups").Some? <==>
      exists g :: g in dc.fileGroups && dc.fileGroups[g] != []
  {
    EntryMember(dc, "fileGroups");
    var fg := FileGroupsJson(dc.fileGroups);
    if exists g :: g in dc.fileGroups && dc.fileGroups[g] != [] {
      var g :| g in dc.fileGroups && dc.fileGroups[g] != [];
      assert g in fg;
    } else {
      assert fg == map[];
    }
  }

  /** One metadata item: `id` written when non-empty, `sortOrder` when not
      negative. */
  method MetadataEntry(m: MetadataField) returns (metaEntry: map<string, JSON>)
    ensures MetadataItem(m) == if |metaEntry| == 0 then None else Some(JObj(metaEntry))
  {
    ghost var fields: Fields := map[];
    metaEntry := map[];
    TrackInsert(metaEntry, fields, "id", NonEmptyStr(m.id));
    if m.id != "" {
      metaEntry := metaEntry["id" := JStr(m.id)];
    }
    fields := fields["id" := NonEmptyStr(m.id)];
    TrackInsert(metaEntry, fields, "sortOrder", SortOrder(m));
    if m.sortOrder >= 0 {
      metaEntry := metaEntry["sortOrder" := JInt(m.sortOrder)];
    }
    fields := fields["sortOrder" := SortOrder(m)];
    ObjectOfMembers(metaEntry, fields);
    assert fields == map["id" := NonEmptyStr(m.id), "sortOrder" := SortOrder(m)];
  }

  /** The inner metadata loop: one array element per item that has an id
      or a sort order, in list order. */
  method MetadataArray(list: seq<MetadataField>) returns (metaArray: seq<JSON>)
    ensures metaArray == MetadataItems(list)
  {
    metaArray := [];
    var i := 0;
    while i < |list|
      invariant 0 <= i <= |list|
      invariant metaArray == MetadataItems(list[..i])
    {
      var metaEntry := MetadataEntry(list[i]);
      if |metaEntry| > 0 {
        metaArray := metaArray + [JObj(metaEntry)];
      }
      assert list[..i + 1][..i] == list[..i];
      i := i + 1;
    }
    assert list[..|list|] == list;
  }

  /** One metadata key: its array when the list is non-empty and the array
      comes out non-empty. */
  method MetadataKey(metaList: seq<MetadataField>) returns (member: Option<JSON>)
    ensures member == if MetadataItems(metaList) != [] then Some(JArr(MetadataItems(metaList))) else None
  {
    member := None;
    if metaList != [] {
      var metaArray := MetadataArray(metaList);
      if metaArray != [] {
        member := Some(JArr(metaArray));
      }
    }
  }

  /** The metadata loop: every key whose array comes out non-empty. */
  method MetadataToJson(md: map<string, seq<MetadataField>>) returns (metadataJson: map<string, JSON>)
    ensures metadataJson == MetadataJson(md)
  {
    metadataJson := map[];
    var pending := md.Keys;
    while pending != {}
      invariant pending <= md.Keys
      invariant forall k :: k in metadataJson <==> k in md && k !in pending && MetadataItems(md[k]) != []
      invariant forall k :: k in metadataJson ==> metadataJson[k] == JArr(MetadataItems(md[k]))
      decreases pending
    {
      var key :| key in pending;
      var member := MetadataKey(md[key]);
      if member.Some? {
        metadataJson := metadataJson[key := member.value];
      }
      pending := pending - {key};
    }
    MetadataJsonFrom(md, metadataJson);
  }

  /** A map holding exactly the keys whose array comes out non-empty, each
      with that array, is the `metadata` object. */
  lemma MetadataJsonFrom(md: map<string, seq<MetadataField>>, m: map<string, JSON>)
    requires forall k :: k in m <==> k in md && MetadataItems(md[k]) != []
    requires forall k :: k in m ==> m[k] == JArr(MetadataItems(md[k]))
    ensures m == MetadataJson(md)
  {
    var spec := MetadataJson(md);
    assert forall k :: k in m <==> k in spec;
  }

  /** One search-sort item: `id` and `direction` written when non-empty. */
  method SortEntry(ss: SortField) returns (ssEntry: map<string, JSON>)
    ensures SortItem(ss) == if |ssEntry| == 0 then None else Some(JObj(ssEntry))
  {
    ghost var fields: Fields := map[];
    ssEntry := map[];
    TrackInsert(ssEntry, fields, "id", NonEmptyStr(ss.id));
    if ss.id != "" {
      ssEntry := ssEntry["id" := JStr(ss.id)];
    }
    fields := fields["id" := NonEmptyStr(ss.id)];
    TrackInsert(ssEntry, fields, "direction", NonEmptyStr(ss.direction));
    if ss.direction != "" {
      ssEntry := ssEntry["direction" := JStr(ss.direction)];
    }
    fields := fields["direction" := NonEmptyStr(ss.direction)];
    ObjectOfMembers(ssEntry, fields);
    assert fields == map["id" := NonEmptyStr(ss.id), "direction" := NonEmptyStr(ss.direction)];
  }

  /** The search-sort loop: one element per item with an id or a direction. */
  method SortArray(list: seq<SortField>) returns (searchSortArray: seq<JSON>)
    ensures searchSortArray == SortItems(list)
  {
    searchSortArray := [];
    var i := 0;
    while i < |list|
      invariant 0 <= i <= |list|
      invariant searchSortArray == SortItems(list[..i])
    {
      var ssEntry := SortEntry(list[i]);
      if |ssEntry| > 0 {
        searchSortArray := searchSortArray + [JObj(ssEntry)];
      }
      assert list[..i + 1][..i] == list[..i];
      i := i + 1;
    }
    assert list[..|list|] == list;
  }

  /** The file-groups loop: every group with at least one product. */
  method FileGroupsToJson(fg: map<string, seq<string>>) returns (fileGroupsJson: map<string, JSON>)
    ensures fileGroupsJson == FileGroupsJson(fg)
  {
    fileGroupsJson := map[];
    var pending := fg.Keys;
    while pending != {}
      invariant pending <= fg.Keys
      invariant forall g :: g in fileGroupsJson <==> g in fg && g !in pending && fg[g] != []
      invariant forall g :: g in fileGroupsJson ==> fileGroupsJson[g] == StrArr(fg[g])
      decreases pending
    {
      var groupId :| groupId in pending;
      var productList := fg[groupId];
      if productList != [] {
        fileGroupsJson := fileGroupsJson[groupId := StrArr(productList)];
      }
      pending := pending - {groupId};
    }
    assert fileGroupsJson == FileGroupsJson(fg);
  }

  /** The `metadata` block: written only when the object comes out
      non-empty. */
  method MetadataMember(md: map<string, seq<MetadataField>>) returns (v: Option<JSON>)
    ensures v == NonEmptyObject(MetadataJson(md))
  {
    v := None;
    if |md| > 0 {
      var metadataJson := MetadataToJson(md);
      if |metadataJson| > 0 {
        v := Some(JObj(metadataJson));
      }
    } else {
      assert MetadataJson(md) == map[];
    }
  }

  /** The `search_sort` block: written only when the array comes out
      non-empty. */
  method SortMember(list: seq<SortField>) returns (v: Option<JSON>)
    ensures v == NonEmptyArray(SortItems(list))
  {
    v := None;
    if list != [] {
      var searchSortArray := SortArray(list);
      if searchSortArray != [] {
        v := Some(JArr(searchSortArray));
      }
    }
  }

  /** The `fileGroups` block: written only when the object comes out
      non-empty. */
  method FileGroupsMember(fg: map<string, seq<string>>) returns (v: Option<JSON>)
    ensures v == NonEmptyObject(FileGroupsJson(fg))
  {
    v := None;
    if |fg| > 0 {
      var fileGroupsJson := FileGroupsToJson(fg);
      if |fileGroupsJson| > 0 {
        v := Some(JObj(fileGroupsJson));
      }
    } else {
      assert FileGroupsJson(fg) == map[];
    }
  }

  /** `datasetCustomizationToJson`: the entry is built member by member,
      each member written only when something survives under it. */
  method CustomizationToJson(dc: Customization) returns (entry: JSON)
    ensures entry == Entry(dc)
  {
    ghost var fields: Fields := map[];
    var obj: map<string, JSON> := map[];
    TrackInsert(obj, fields, "excluded", Bool(dc.excluded));
    if dc.excluded.Some? {
      obj := obj["excluded" := JBool(dc.excluded.value)];
    }
    fields := fields["excluded" := Bool(dc.excluded)];

    var metadata := MetadataMember(dc.metadata);
    TrackInsert(obj, fields, "metadata", metadata);
    if metadata.Some? {
      obj := obj["metadata" := metadata.value];
    }
    fields := fields["metadata" := metadata];

    var searchSort := SortMember(dc.searchSort);
    TrackInsert(obj, fields, "search_sort", searchSort);
    if searchSort.Some? {
      obj := obj["search_sort" := searchSort.value];
    }
    fields := fields["search_sort" := searchSort];

    var fileGroups := FileGroupsMember(dc.fileGroups);
    TrackInsert(obj, fields, "fileGroups", fileGroups);
    if fileGroups.Some? {
      obj := obj["fileGroups" := fileGroups.value];
    }
    fields := fields["fileGroups" := fileGroups];

    ObjectOfMembers(obj, fields);
    entry := if |obj| == 0 then JNull else JObj(obj);
  }

  /** Each customization's dataset name beside its entry, in input order. */
  function Named(cs: seq<Customization>): (ps: seq<(string, JSON)>)
    ensures |ps| == |cs|
  {
    if cs == [] then []
    else Named(cs[..|cs| - 1]) + [(cs[|cs| - 1].datasetName, Entry(cs[|cs| - 1]))]
  }

  lemma {:induction false} NamedIndex(cs: seq<Customization>, i: int)
    requires 0 <= i < |cs|
    ensures Named(cs)[i] == (cs[i].datasetName, Entry(cs[i]))
  {
    if i < |cs| - 1 {
      NamedIndex(cs[..|cs| - 1], i);
    }
  }

  /** `datasetJson` after a run of the loop: each non-null entry appended
      to the array under its dataset name. */
  function Groups(ps: seq<(string, JSON)>): map<string, seq<JSON>>
  {
    if ps == [] then map[]
    else
      var g := Groups(ps[..|ps| - 1]);
      var (name, e) := ps[|ps| - 1];
      if e == JNull then g
      else g[name := (if name in g then g[name] else []) + [e]]
  }

  /** Reference definition: the non-null entries named `name`, in order. */
  function EntriesFor(ps: seq<(string, JSON)>, name: string): seq<JSON>
  {
    if ps == [] then []
    else (if ps[0].0 == name && ps[0].1 != JNull then [ps[0].1] else []) + EntriesFor(ps[1..], name)
  }

  lemma {:induction false} EntriesForSnoc(ps: seq<(string, JSON)>, p: (string, JSON), name: string)
    ensures EntriesFor(ps + [p], name)
         == EntriesFor(ps, name) + (if p.0 == name && p.1 != JNull then [p.1] else [])
  {
    if ps != [] {
      assert (ps + [p])[1..] == ps[1..] + [p];
      EntriesForSnoc(ps[1..], p, name);
    }
  }

  /** The grouping keeps, under each name, exactly that name's non-null
      entries in input order, and has no name without one. */
  lemma {:induction false} GroupsAreEntries(ps: seq<(string, JSON)>)
    ensures forall n :: n in Groups(ps) <==> EntriesFor(ps, n) != []
    ensures forall n :: n in Groups(ps) ==> Groups(ps)[n] == EntriesFor(ps, n)
  {
    if ps != [] {
      var init := ps[..|ps| - 1];
      var p := ps[|ps| - 1];
      GroupsAreEntries(init);
      assert init + [p] == ps;
      forall n ensures EntriesFor(ps, n)
          == EntriesFor(init, n) + (if p.0 == n && p.1 != JNull then [p.1] else []) {
        EntriesForSnoc(init, p, n);
      }
    }
  }

  /** The grouping is empty exactly when every entry is null. */
  lemma {:induction false} GroupsEmpty(ps: seq<(string, JSON)>)
    ensures |Groups(ps)| == 0 <==> forall i :: 0 <= i < |ps| ==> ps[i].1 == JNull
  {
    if ps != [] {
      var init := ps[..|ps| - 1];
      GroupsEmpty(init);
      assert forall i :: 0 <= i < |init| ==> init[i] == ps[i];
      var g := Groups(init);
      var (name, e) := ps[|ps| - 1];
      if e != JNull {
        assert name in Groups(ps);
      }
    }
  }

  lemma {:induction false} EntriesForPruned(cs: seq<Customization>, name: string)
    ensures forall e :: e in EntriesFor(Named(cs), name) ==> NoEmptyContainer(e)
  {
    forall e | e in EntriesFor(Named(cs), name) ensures NoEmptyContainer(e) {
      var i := EntriesForFrom(Named(cs), name, e);
      NamedIndex(cs, i);
      EntryPruned(cs[i]);
    }
  }

  /** Every entry kept for a name comes from some element of the input. */
  lemma {:induction false} EntriesForFrom(ps: seq<(string, JSON)>, name: string, e: JSON) returns (i: int)
    requires e in EntriesFor(ps, name)
    ensures 0 <= i < |ps| && ps[i] == (name, e)
  {
    if ps[0].0 == name && ps[0].1 != JNull && e == ps[0].1 {
      i := 0;
    } else {
      var j := EntriesForFrom(ps[1..], name, e);
      i := j + 1;
    }
  }

  /** The array under each dataset name in the request. */
  function GroupJson(g: map<string, seq<JSON>>): map<string, JSON>
  {
    map n | n in g :: JArr(g[n])
  }

  /** The request object around a grouping: `datasetCustomization` written
      only when the grouping is non-empty. */
  function GroupedPayload(g: map<string, seq<JSON>>): JSON
  {
    ObjectOf(map["datasetCustomization" := NonEmptyObject(GroupJson(g))])
  }

  /** The payload of `dataset-set-customizations`. */
  function SetCustomizationsPayload(cs: seq<Customization>): JSON
  {
    GroupedPayload(Groups(Named(cs)))
  }

  lemma PayloadMember(g: map<string, seq<JSON>>)
    ensures Member(GroupedPayload(g), "datasetCustomization") == NonEmptyObject(GroupJson(g))
    ensures KeysOf(GroupedPayload(g)) <= {"datasetCustomization"}
  {
    var fields := map["datasetCustomization" := NonEmptyObject(GroupJson(g))];
    CarriesKeys(GroupedPayload(g), fields);
    assert Member(GroupedPayload(g), "datasetCustomization") == Lookup(fields, "datasetCustomization");
  }

  /** The request is `null` exactly when no customization yields an entry. */
  lemma SetCustomizationsNull(cs: seq<Customization>)
    ensures SetCustomizationsPayload(cs) == JNull <==> forall i :: 0 <= i < |cs| ==> Entry(cs[i]) == JNull
  {
    var ps := Named(cs);
    var g := Groups(ps);
    PayloadMember(Groups(Named(cs)));
    GroupsEmpty(ps);
    forall i | 0 <= i < |cs| ensures ps[i].1 == Entry(cs[i]) {
      NamedIndex(cs, i);
    }
    if |g| != 0 {
      var n :| n in g;
      assert n in GroupJson(g);
    }
  }

  /** When present, `datasetCustomization` holds under each name exactly
      that name's entries in input order, and no other name. */
  lemma SetCustomizationsGrouped(cs: seq<Customization>)
    ensures SetCustomizationsPayload(cs) != JNull ==>
      var grouped := SetCustomizationsPayload(cs).fields["datasetCustomization"];
      grouped.JObj?
      && (forall n :: n in grouped.fields <==> EntriesFor(Named(cs), n) != [])
      && (forall n :: n in grouped.fields ==> grouped.fields[n] == JArr(EntriesFor(Named(cs), n)))
  {
    PayloadMember(Groups(Named(cs)));
    GroupsAreEntries(Named(cs));
  }

  /** The request holds no empty array or object at any level. */
  lemma SetCustomizationsPruned(cs: seq<Customization>)
    ensures NoEmptyContainer(SetCustomizationsPayload(cs))
  {
    var g := Groups(Named(cs));
    GroupsAreEntries(Named(cs));
    forall n | n in g ensures NoEmptyContainer(JArr(g[n])) {
      EntriesForPruned(cs, n);
    }
    var fields := map["datasetCustomization" := NonEmptyObject(GroupJson(g))];
    CarriesNoEmptyContainer(SetCustomizationsPayload(cs), fields);
  }

  /** One more customization extends the grouping by its entry, unless
      the entry is null. */
  lemma GroupStep(cs: seq<Customization>, i: int)
    requires 0 <= i < |cs|
    ensures Groups(Named(cs[..i + 1])) ==
      var g := Groups(Named(cs[..i]));
      if Entry(cs[i]) == JNull then g
      else g[cs[i].datasetName := (if cs[i].datasetName in g then g[cs[i].datasetName] else []) + [Entry(cs[i])]]
  {
    assert cs[..i + 1][..i] == cs[..i];
    assert Named(cs[..i + 1]) == Named(cs[..i]) + [(cs[i].datasetName, Entry(cs[i]))];
  }

  /** nlohmann's `empty()` holds of an entry exactly when it is null. */
  lemma EntryEmpty(dc: Customization)
    ensures IsEmpty(Entry(dc)) <==> Entry(dc) == JNull
  {
  }

  /** The loop of `datasetSetCustomizations`: serialise each customization
      and append the non-empty entries under their dataset name. */
  method GroupEntries(cs: seq<Customization>) returns (datasetJson: map<string, seq<JSON>>)
    ensures datasetJson == Groups(Named(cs))
  {
    datasetJson := map[];
    var i := 0;
    while i < |cs|
      invariant 0 <= i <= |cs|
      invariant datasetJson == Groups(Named(cs[..i]))
    {
      var dc := cs[i];
      var entry := CustomizationToJson(dc);
      GroupStep(cs, i);
      EntryEmpty(dc);
      if !IsEmpty(entry) {
        var list := if dc.datasetName in datasetJson then datasetJson[dc.datasetName] else [];
        datasetJson := datasetJson[dc.datasetName := list + [entry]];
      }
      i := i + 1;
    }
    assert cs[..|cs|] == cs;
  }

  /** `datasetSetCustomizations`: send the grouping under
      `datasetCustomization` unless it is empty. */
  method SetCustomizations(cs: seq<Customization>) returns (r: Request)
    ensures r == Send("dataset-set-customizations", SetCustomizationsPayload(cs))
  {
    var datasetJson := GroupEntries(cs);
    var payload := RequestObject(datasetJson);
    r := Send("dataset-set-customizations", payload);
  }

  /** The request object built around the grouping. */
  method RequestObject(datasetJson: map<string, seq<JSON>>) returns (payload: JSON)
    ensures payload == GroupedPayload(datasetJson)
  {
    ghost var fields: Fields := map[];
    var jsonRequest: map<string, JSON> := map[];
    TrackInsert(jsonRequest, fields, "datasetCustomization", NonEmptyObject(GroupJson(datasetJson)));
    if |datasetJson| > 0 {
      var n :| n in datasetJson;
      assert n in GroupJson(datasetJson);
      jsonRequest := jsonRequest["datasetCustomization" := JObj(GroupJson(datasetJson))];
    } else {
      assert GroupJson(datasetJson) == map[];
    }
    fields := fields["datasetCustomization" := NonEmptyObject(GroupJson(datasetJson))];
    ObjectOfMembers(jsonRequest, fields);
    payload := if |jsonRequest| == 0 then JNull else JObj(jsonRequest);
  }
}
