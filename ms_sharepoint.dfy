/** The document-library client: Graph queries for sites and folders, and the
    upload of a finished document into a folder. Every request first checks
    that the client holds an access token. The lookups are linear searches
    that stop at the first item whose "name" equals the one asked for. */
module MsSharePoint {
  import opened Common

  const GraphRoot: string := "https://graph.microsoft.com/v1.0"
  const SitesUrl: string := "https://graph.microsoft.com/v1.0/sites"
  const NoToken: Error := ValueError("アクセストークンが設定されていません")
  const FolderMissing: Error := ValueError("フォルダが見つかりません")
  const NoResponse: Error := Failure("'NoneType' object has no attribute 'json'")
  const NotAList: Error := Failure("'value' is not a list")

  /** What the Graph endpoints answer: the decoded body of a GET (or no
      response), the outcome of a PUT, and the bytes read from a local file. */
  datatype Graph = Graph(
    get: string -> Result<Option<Json>>,
    put: (string, seq<int>) -> Option<Error>,
    read: string -> Result<seq<int>>)

  /** Python's `key in j`: a key of an object, an element of a list, a part
      of a string; other values raise TypeError. */
  function KeyIn(key: string, j: Json): (r: Result<bool>)
    ensures j.JObj? ==> r == Ok(key in j.fields)
    ensures r == Ok(true) && j.JObj? ==> Has(j, key)
  {
    match j
    case JObj(m) => Ok(key in m)
    case JArr(items) => Ok(JStr(key) in items)
    case JStr(s) => Ok(IsInfix(key, s))
    case JNull => Err(Failure("argument of type 'NoneType' is not iterable"))
    case JBool(_) => Err(Failure("argument of type 'bool' is not iterable"))
    case JNum(_) => Err(Failure("argument of type 'int' is not iterable"))
  }

  predicate IsFolder(item: Json)
  {
    KeyIn("folder", item) == Ok(true)
  }

  /** `[item for item in items if "folder" in item]`: the folders in their
      order, or the first membership test that raises. */
  function FoldersOnly(items: seq<Json>): (r: Result<seq<Json>>)
    ensures r.Ok? <==> forall i :: 0 <= i < |items| ==> KeyIn("folder", items[i]).Ok?
    ensures r.Ok? ==> r.value == Filter(items, IsFolder)
    decreases |items|
  {
    if items == [] then Ok([])
    else
      var here :- KeyIn("folder", items[0]);
      var rest :- FoldersOnly(items[1..]);
      assert forall i :: 1 <= i < |items| ==> items[i] == items[1..][i - 1];
      Ok(if here then [items[0]] + rest else rest)
  }

  /** The item's "name" is `name`. */
  predicate NamedAs(item: Json, name: string)
  {
    Has(item, "name") && item.fields["name"] == JStr(name)
  }

  /** Items the search passes over: they have a "name" and it is not `name`. */
  predicate PassedOver(items: seq<Json>, n: int, name: string)
    requires n <= |items|
  {
    forall j :: 0 <= j < n ==> Has(items[j], "name") && !NamedAs(items[j], name)
  }

  /** The search reaches an item with no "name" before any match, and
      `item["name"]` raises there. */
  predicate StopsOnNameless(items: seq<Json>, name: string)
  {
    exists k :: 0 <= k < |items| && PassedOver(items, k, name) && !Has(items[k], "name")
  }

  /** The first item named `name` has no "id". */
  predicate FirstMatchLacksId(items: seq<Json>, name: string)
  {
    exists k :: 0 <= k < |items| && PassedOver(items, k, name) && NamedAs(items[k], name) && !Has(items[k], "id")
  }

  /** The graph URL of a folder's children. */
  function ChildrenUrl(siteId: string, folderId: string): string
  {
    GraphRoot + "/sites/" + siteId + "/drive/items/" + folderId + "/children"
  }

  /** The graph URL the upload writes to. */
  function UploadUrl(siteId: string, folderId: string, fileName: string): string
  {
    GraphRoot + "/sites/" + siteId + "/drive/items/" + folderId + ":/" + fileName + ":/content"
  }

  /** `Path(p).name`: the text after the last "/". */
  function FileName(path: string): (r: string)
    ensures |r| <= |path| && r == path[|path| - |r|..] && '/' !in r
    ensures |r| < |path| ==> path[|path| - |r| - 1] == '/'
    decreases |path|
  {
    if path == [] then []
    else if path[|path| - 1] == '/' then []
    else
      var init := path[..|path| - 1];
      var q := FileName(init);
      assert init[|init| - |q|..] == path[|path| - |q| - 1..|path| - 1];
      assert path[|path| - |q| - 1..] == path[|path| - |q| - 1..|path| - 1] + [path[|path| - 1]];
      q + [path[|path| - 1]]
  }

  /** What `get_folders` gives when the token is there and the GET answered. */
  function FoldersPayload(response: Option<Json>): (r: Result<Option<Json>>)
    ensures response.None? ==> r == Ok(None)
    ensures response.Some? && !response.value.JObj? && r.Ok? ==> r == Ok(response)
    ensures response.Some? && response.value.JObj? && !Has(response.value, "value") ==> r == Ok(response)
    ensures response.Some? && Has(response.value, "value") && r.Ok? ==>
      && response.value.fields["value"].JArr?
      && var kept := Filter(response.value.fields["value"].items, IsFolder);
         r == Ok(Some(JObj(response.value.fields["value" := JArr(kept)])))
  {
    if response.None? then Ok(None)
    else
      var data := response.value;
      var hasValue :- KeyIn("value", data);
      if !hasValue then Ok(Some(data))
      else
        var value :- Get(data, "value");
        if !value.JArr? then Err(NotAList)
        else
          var kept :- FoldersOnly(value.items);
          Ok(Some(JObj(data.fields["value" := JArr(kept)])))
  }

  /** `get_folders`: refuse without a token, else filter the children listing. */
  function GetFoldersSpec(token: Option<string>, graph: Graph, siteId: string, folderId: string): (r: Result<Option<Json>>)
    ensures token.None? ==> r == Err(NoToken)
    ensures token.Some? && graph.get(ChildrenUrl(siteId, folderId)).Err? ==> r == graph.get(ChildrenUrl(siteId, folderId))
  {
    if token.None? then Err(NoToken)
    else
      var response :- graph.get(ChildrenUrl(siteId, folderId));
      FoldersPayload(response)
  }

  class MsSharePointClient {
    var accessToken: Option<string>
    const graph: Graph

    /** The token is whatever the identity platform granted; acquiring it is
        not part of this model. */
    constructor (accessToken: Option<string>, graph: Graph)
      ensures this.accessToken == accessToken && this.graph == graph
    {
      this.accessToken := accessToken;
      this.graph := graph;
    }

    /** `_validate_token`. */
    method ValidateToken() returns (r: Result<()>)
      ensures r.Err? <==> accessToken.None?
      ensures r.Err? ==> r.error == NoToken
    {
      if accessToken.None? {
        return Err(NoToken);
      }
      return Ok(());
    }

    /** `graph_api_get`: no request without a token. */
    method GraphGet(url: string) returns (r: Result<Option<Json>>)
      ensures accessToken.None? ==> r == Err(NoToken)
      ensures accessToken.Some? ==> r == graph.get(url)
    {
      var valid := ValidateToken();
      if valid.Err? {
        return Err(valid.error);
      }
      r := graph.get(url);
    }

    /** `get_sites`: the decoded site listing. */
    method GetSites() returns (r: Result<Json>)
      ensures accessToken.None? ==> r == Err(NoToken)
      ensures accessToken.Some? && graph.get(SitesUrl).Ok? ==>
        r == if graph.get(SitesUrl).value.Some? then Ok(graph.get(SitesUrl).value.value) else Err(NoResponse)
      ensures accessToken.Some? && graph.get(SitesUrl).Err? ==> r == Err(graph.get(SitesUrl).error)
    {
      var response := GraphGet(SitesUrl);
      if response.Err? {
        return Err(response.error);
      }
      if response.value.None? {
        return Err(NoResponse);
      }
      r := Ok(response.value.value);
    }

    /** The first item named `name`, or none; reading the name of an item
        that has none raises, as `item["name"]` does. */
    static method FindByName(items: seq<Json>, name: string) returns (r: Result<Option<nat>>)
      ensures r.Ok? && r.value.Some? ==>
        r.value.value < |items| && NamedAs(items[r.value.value], name) && PassedOver(items, r.value.value, name)
      ensures r.Ok? && r.value.None? ==> PassedOver(items, |items|, name)
      ensures r.Err? ==> exists k :: 0 <= k < |items| && PassedOver(items, k, name) && !Has(items[k], "name")
                                    && r == Err(Get(items[k], "name").error)
    {
      var i := 0;
      while i < |items|
        invariant 0 <= i <= |items|
        invariant PassedOver(items, i, name)
      {
        var itemName := Get(items[i], "name");
        if itemName.Err? {
          return Err(itemName.error);
        }
        if itemName.value == JStr(name) {
          return Ok(Some(i));
        }
        i := i + 1;
      }
      return Ok(None);
    }

    /** `for item in listing["value"]`: the list to search. */
    static function Listing(j: Json): (r: Result<seq<Json>>)
      ensures r.Ok? <==> Has(j, "value") && j.fields["value"].JArr?
      ensures r.Ok? ==> r.value == j.fields["value"].items
    {
      var value :- Get(j, "value");
      if value.JArr? then Ok(value.items) else Err(NotAList)
    }

    /** `get_site_id`: the id of the first site named `siteName`. */
    method GetSiteId(siteName: string) returns (r: Result<Option<Json>>)
      ensures accessToken.None? ==> r == Err(NoToken)
      ensures r.Ok? && r.value.Some? ==>
        exists k :: 0 <= k < |SiteList()| && NamedAs(SiteList()[k], siteName) && PassedOver(SiteList(), k, siteName)
                    && Has(SiteList()[k], "id") && r.value.value == SiteList()[k].fields["id"]
      ensures r.Ok? && r.value.None? ==> PassedOver(SiteList(), |SiteList()|, siteName)
      ensures r.Err? ==>
        || accessToken.None? || graph.get(SitesUrl).Err? || graph.get(SitesUrl).value.None?
        || Listing(graph.get(SitesUrl).value.value).Err?
        || StopsOnNameless(SiteList(), siteName) || FirstMatchLacksId(SiteList(), siteName)
    {
      var sites := GetSites();
      if sites.Err? {
        return Err(sites.error);
      }
      var items := Listing(sites.value);
      if items.Err? {
        return Err(items.error);
      }
      assert items.value == SiteList();
      var found := FindByName(items.value, siteName);
      if found.Err? {
        return Err(found.error);
      }
      if found.value.None? {
        return Ok(None);
      }
      var k := found.value.value;
      var id := Get(items.value[k], "id");
      if id.Err? {
        return Err(id.error);
      }
      assert NamedAs(SiteList()[k], siteName) && PassedOver(SiteList(), k, siteName);
      return Ok(Some(id.value));
    }

    /** The site listing the GET returns, when it returns one (else empty). */
    function SiteList(): seq<Json>
      reads this
    {
      if accessToken.Some? && graph.get(SitesUrl).Ok? && graph.get(SitesUrl).value.Some?
         && Listing(graph.get(SitesUrl).value.value).Ok?
      then Listing(graph.get(SitesUrl).value.value).value
      else []
    }

    /** `get_folders`. */
    method GetFolders(siteId: string, folderId: string) returns (r: Result<Option<Json>>)
      ensures r == GetFoldersSpec(accessToken, graph, siteId, folderId)
    {
      var response := GraphGet(ChildrenUrl(siteId, folderId));
      if response.Err? {
        return Err(response.error);
      }
      if response.value.None? {
        return Ok(None);
      }
      var data := response.value.value;
      var hasValue := KeyIn("value", data);
      if hasValue.Err? {
        return Err(hasValue.error);
      }
      if !hasValue.value {
        return Ok(Some(data));
      }
      var items := Listing(data);
      if items.Err? {
        return Err(items.error);
      }
      var kept := FoldersOnly(items.value);
      if kept.Err? {
        return Err(kept.error);
      }
      data := JObj(data.fields["value" := JArr(kept.value)]);
      r := Ok(Some(data));
    }

    /** `get_folder`: the record of the first folder named `folderName`
        among the children of `folderId`. */
    method GetFolder(siteId: string, folderName: string, folderId: string) returns (r: Result<Option<Json>>)
      ensures GetFoldersSpec(accessToken, graph, siteId, folderId).Err? ==> r == GetFoldersSpec(accessToken, graph, siteId, folderId)
      ensures GetFoldersSpec(accessToken, graph, siteId, folderId) == Ok(None) ==> r == Ok(None)
      ensures r.Ok? && r.value.Some? ==>
        && FolderListed(accessToken, graph, siteId, folderId)
        && var items := FolderList(accessToken, graph, siteId, folderId);
           exists k :: 0 <= k < |items| && PassedOver(items, k, folderName) && NamedAs(items[k], folderName)
                       && IsFolder(items[k]) && r.value.value == items[k]
      ensures r == Ok(None) && GetFoldersSpec(accessToken, graph, siteId, folderId).Ok?
              && GetFoldersSpec(accessToken, graph, siteId, folderId).value.Some? ==>
        && FolderListed(accessToken, graph, siteId, folderId)
        && var items := FolderList(accessToken, graph, siteId, folderId);
           PassedOver(items, |items|, folderName)
      ensures r.Err? ==>
        || GetFoldersSpec(accessToken, graph, siteId, folderId).Err?
        || (GetFoldersSpec(accessToken, graph, siteId, folderId).value.Some? && !FolderListed(accessToken, graph, siteId, folderId))
        || (FolderListed(accessToken, graph, siteId, folderId)
            && StopsOnNameless(FolderList(accessToken, graph, siteId, folderId), folderName))
    {
      var folders := GetFolders(siteId, folderId);
      if folders.Err? {
        return Err(folders.error);
      }
      if folders.value.None? {
        return Ok(None);
      }
      var items := Listing(folders.value.value);
      if items.Err? {
        return Err(items.error);
      }
      assert items.value == FolderList(accessToken, graph, siteId, folderId);
      FilteredAreFolders(accessToken, graph, siteId, folderId);
      var found := FindByName(items.value, folderName);
      if found.Err? {
        return Err(found.error);
      }
      if found.value.None? {
        return Ok(None);
      }
      var k := found.value.value;
      assert items.value[k] in items.value;
      return Ok(Some(items.value[k]));
    }

    /** `get_folder_id`: the id of the first folder named `folderName` among
        the children of `folderId`. */
    method GetFolderId(siteId: string, folderName: string, folderId: string) returns (r: Result<Option<Json>>)
      ensures GetFoldersSpec(accessToken, graph, siteId, folderId).Err? ==> r == GetFoldersSpec(accessToken, graph, siteId, folderId)
      ensures GetFoldersSpec(accessToken, graph, siteId, folderId) == Ok(None) ==> r == Ok(None)
      ensures r.Ok? && r.value.Some? ==>
        && FolderListed(accessToken, graph, siteId, folderId)
        && var items := FolderList(accessToken, graph, siteId, folderId);
           exists k :: 0 <= k < |items| && PassedOver(items, k, folderName) && NamedAs(items[k], folderName)
                       && IsFolder(items[k]) && Has(items[k], "id") && r.value.value == items[k].fields["id"]
      ensures r == Ok(None) && GetFoldersSpec(accessToken, graph, siteId, folderId).Ok?
              && GetFoldersSpec(accessToken, graph, siteId, folderId).value.Some? ==>
        && FolderListed(accessToken, graph, siteId, folderId)
        && var items := FolderList(accessToken, graph, siteId, folderId);
           PassedOver(items, |items|, folderName)
      ensures r.Err? ==>
        || GetFoldersSpec(accessToken, graph, siteId, folderId).Err?
        || (GetFoldersSpec(accessToken, graph, siteId, folderId).value.Some? && !FolderListed(accessToken, graph, siteId, folderId))
        || (FolderListed(accessToken, graph, siteId, folderId)
            && StopsOnNameless(FolderList(accessToken, graph, siteId, folderId), folderName))
        || (FolderListed(accessToken, graph, siteId, folderId)
            && FirstMatchLacksId(FolderList(accessToken, graph, siteId, folderId), folderName))
    {
      var folder := GetFolder(siteId, folderName, folderId);
      if folder.Err? || folder.value.None? {
        return folder;
      }
      var id := Get(folder.value.value, "id");
      if id.Err? {
        return Err(id.error);
      }
      return Ok(Some(id.value));
    }

    /** `get_folder_id_from_tree`: one level only, the same search. */
    method GetFolderIdFromTree(siteId: string, directory: string, folderId: string) returns (r: Result<Option<Json>>)
      ensures GetFoldersSpec(accessToken, graph, siteId, folderId).Err? ==> r == GetFoldersSpec(accessToken, graph, siteId, folderId)
      ensures GetFoldersSpec(accessToken, graph, siteId, folderId) == Ok(None) ==> r == Ok(None)
      ensures r.Ok? && r.value.Some? ==>
        && FolderListed(accessToken, graph, siteId, folderId)
        && var items := FolderList(accessToken, graph, siteId, folderId);
           exists k :: 0 <= k < |items| && PassedOver(items, k, directory) && NamedAs(items[k], directory)
                       && IsFolder(items[k]) && Has(items[k], "id") && r.value.value == items[k].fields["id"]
      ensures r == Ok(None) && GetFoldersSpec(accessToken, graph, siteId, folderId).Ok?
              && GetFoldersSpec(accessToken, graph, siteId, folderId).value.Some? ==>
        && FolderListed(accessToken, graph, siteId, folderId)
        && var items := FolderList(accessToken, graph, siteId, folderId);
           PassedOver(items, |items|, directory)
      ensures r.Err? ==>
        || GetFoldersSpec(accessToken, graph, siteId, folderId).Err?
        || (GetFoldersSpec(accessToken, graph, siteId, folderId).value.Some? && !FolderListed(accessToken, graph, siteId, folderId))
        || (FolderListed(accessToken, graph, siteId, folderId)
            && StopsOnNameless(FolderList(accessToken, graph, siteId, folderId), directory))
        || (FolderListed(accessToken, graph, siteId, folderId)
            && FirstMatchLacksId(FolderList(accessToken, graph, siteId, folderId), directory))
    {
      r := GetFolderId(siteId, directory, folderId);
    }

    /** `get_subfolders`: the children of `folderId`, folders only. */
    method GetSubfolders(siteId: string, folderId: string) returns (r: Result<Option<Json>>)
      ensures r == GetFoldersSpec(accessToken, graph, siteId, folderId)
    {
      r := GetFolders(siteId, folderId);
    }

    /** `upload_file`: a falsy folder id is refused before any I/O; otherwise
        the file is read and PUT to its place in the folder. The PUT's status
        is not checked. */
    method UploadFile(siteId: string, folderId: string, filePath: string) returns (r: Result<()>, url: Option<string>)
      ensures folderId == "" ==> r == Err(FolderMissing) && url.None?
      ensures folderId != "" ==> url == Some(UploadUrl(siteId, folderId, FileName(filePath)))
      ensures r.Ok? <==>
        && folderId != "" && graph.read(filePath).Ok? && accessToken.Some?
        && graph.put(UploadUrl(siteId, folderId, FileName(filePath)), graph.read(filePath).value).None?
    {
      if folderId == "" {
        return Err(FolderMissing), None;
      }
      url := Some(UploadUrl(siteId, folderId, FileName(filePath)));
      var data := graph.read(filePath);
      if data.Err? {
        return Err(data.error), url;
      }
      var valid := ValidateToken();
      if valid.Err? {
        return Err(valid.error), url;
      }
      var failure := graph.put(url.value, data.value);
      r := if failure.Some? then Err(failure.value) else Ok(());
    }
  }

  /** `get_folders` answered with a payload whose "value" is a list. */
  predicate FolderListed(token: Option<string>, graph: Graph, siteId: string, folderId: string)
  {
    var s := GetFoldersSpec(token, graph, siteId, folderId);
    s.Ok? && s.value.Some? && MsSharePointClient.Listing(s.value.value).Ok?
  }

  /** The folders the lookups search, when `get_folders` listed any (else empty). */
  function FolderList(token: Option<string>, graph: Graph, siteId: string, folderId: string): seq<Json>
  {
    if FolderListed(token, graph, siteId, folderId)
    then MsSharePointClient.Listing(GetFoldersSpec(token, graph, siteId, folderId).value.value).value
    else []
  }

  /** Whatever `get_folders` lists under "value" is a folder. */
  lemma FilteredAreFolders(token: Option<string>, graph: Graph, siteId: string, folderId: string)
    ensures var r := GetFoldersSpec(token, graph, siteId, folderId);
      r.Ok? && r.value.Some? && MsSharePointClient.Listing(r.value.value).Ok? ==>
        forall item :: item in MsSharePointClient.Listing(r.value.value).value ==> IsFolder(item)
  {
    var r := GetFoldersSpec(token, graph, siteId, folderId);
    if r.Ok? && r.value.Some? && MsSharePointClient.Listing(r.value.value).Ok? {
      var response := graph.get(ChildrenUrl(siteId, folderId)).value;
      if Has(response.value, "value") {
        var kept := Filter(response.value.fields["value"].items, IsFolder);
        assert MsSharePointClient.Listing(r.value.value).value == kept;
      }
    }
  }

  /** Listing the folders again changes nothing: `get_folders` is idempotent
      on its own output. */
  lemma FoldersOnlyIdempotent(items: seq<Json>)
    requires FoldersOnly(items).Ok?
    ensures FoldersOnly(FoldersOnly(items).value) == FoldersOnly(items)
  {
    var kept := FoldersOnly(items).value;
    FilterIdempotent(items, IsFolder);
    forall i | 0 <= i < |kept| ensures KeyIn("folder", kept[i]).Ok? {
      assert IsFolder(kept[i]);
    }
  }
}
