/**
 * The request virtualizer of FaceExtension: the WebView client's
 * `shouldInterceptRequest`, which answers the script runtime's requests for
 * the facemesh model from the app's bundled assets instead of the network.
 *
 * The asset store is an oracle `openAsset` that yields a stream, or `None`
 * where opening the asset throws `IOException`. The platform check
 * `SdkLevel.getLevel() >= SdkLevel.LEVEL_LOLLIPOP` is the boolean
 * `atLeastLollipop`.
 */
module Virtualizer {
  import opened Wrappers
  import opened JavaStrings

  /** The canonical base URL of the model, served from assets (written in pieces for the proofs below). */
  const ModelUrl: string := "https://" + "tfhub.dev/" + "mediapipe/" + "tfjs-model/" + "facemesh/" + "1/default/1/"

  /** The base URL holds no `?` and ends in `/`. */
  lemma ModelUrlShape()
    ensures '?' !in ModelUrl && ModelUrl[|ModelUrl| - 1] == '/'
  {
    assert '?' !in "https://";
    assert '?' !in "tfhub.dev/";
    assert '?' !in "mediapipe/";
    assert '?' !in "tfjs-model/";
    assert '?' !in "facemesh/";
    assert '?' !in "1/default/1/";
  }

  /** Status line and headers of a response built with the six-argument constructor. */
  datatype Status = Status(code: int, reason: string, headers: map<string, string>)

  /** A `WebResourceResponse`; `status` is `None` for the three-argument constructor. */
  datatype Response<S> = Response(mimeType: string, encoding: string, status: Option<Status>, data: S)

  /** What `shouldInterceptRequest` returns: a local response, or the default handling. */
  datatype Decision<S> = Served(response: Response<S>) | PassThrough

  /** The status and permissive cross-origin header sent on Lollipop and later. */
  const OkWithCors: Status := Status(200, "OK", map["Access-Control-Allow-Origin" := "*"])

  /** The URL with everything from its first `?` on removed. */
  function CutQuery(url: string): (path: string)
    ensures '?' !in path
    ensures StartsWith(url, path)
    ensures |path| < |url| ==> url[|path|] == '?'
  {
    var i := IndexOf(url, '?');
    if i >= 0 then url[..i] else url
  }

  /** A path without `?` followed by nothing or by a query is cut back to that path. */
  lemma CutQueryOf(path: string, query: string)
    requires '?' !in path
    requires query == [] || query[0] == '?'
    ensures CutQuery(path + query) == path
  {
    if query == [] {
      assert path + query == path;
    } else {
      assert path + query == path + ['?'] + query[1..];
      IndexOfAfter(path, '?', query[1..]);
    }
  }

  /**
   * The base URL has no `?`, so cutting the query never reaches into it:
   * testing the prefix before the cut, as the extension does, or after it
   * gives the same answer.
   */
  lemma CutQueryKeepsModelUrl(url: string)
    ensures StartsWith(url, ModelUrl) <==> StartsWith(CutQuery(url), ModelUrl)
  {
    var path := CutQuery(url);
    if !StartsWith(url, ModelUrl) {
      assert |ModelUrl| <= |path| ==> url[..|ModelUrl|] == path[..|ModelUrl|];
      return;
    }
    ModelUrlShape();
    assert forall i :: 0 <= i < |ModelUrl| ==> url[i] == ModelUrl[i];
    assert path[..|ModelUrl|] == url[..|ModelUrl|];
  }

  /** The asset named by a request for the model: the cut URL after the base URL. */
  function AssetName(url: string): (name: string)
    requires StartsWith(url, ModelUrl)
    ensures '?' !in name
    ensures StartsWith(url, ModelUrl + name)
    ensures |ModelUrl + name| < |url| ==> url[|ModelUrl + name|] == '?'
  {
    CutQueryKeepsModelUrl(url);
    var path := CutQuery(url);
    assert path == ModelUrl + path[|ModelUrl|..];
    path[|ModelUrl|..]
  }

  /** Content type and charset chosen from the cut URL's `.json` suffix. */
  function MimeType(path: string): string {
    if EndsWith(path, ".json") then "application/json" else "application/octet-stream"
  }

  function Encoding(path: string): string {
    if EndsWith(path, ".json") then "UTF-8" else "binary"
  }

  /** The response for a model request whose asset opened as `data`. */
  function ModelResponse<S>(path: string, atLeastLollipop: bool, data: S): (r: Response<S>)
    ensures r.mimeType == (if EndsWith(path, ".json") then "application/json" else "application/octet-stream")
    ensures r.encoding == (if EndsWith(path, ".json") then "UTF-8" else "binary")
    ensures r.status.Some? <==> atLeastLollipop
    ensures r.status.Some? ==> (r.status.value.code == 200 && "Access-Control-Allow-Origin" in r.status.value.headers
      && r.status.value.headers["Access-Control-Allow-Origin"] == "*")
    ensures r.data == data
  {
    Response(MimeType(path), Encoding(path), if atLeastLollipop then Some(OkWithCors) else None, data)
  }

  /** `shouldInterceptRequest`: serve a model URL from assets, otherwise fall through. */
  function ShouldInterceptRequest<S>(url: string, atLeastLollipop: bool, openAsset: string -> Option<S>): (r: Decision<S>)
    ensures !StartsWith(url, ModelUrl) ==> r == PassThrough
    ensures StartsWith(url, ModelUrl) ==> (r.Served? <==> openAsset(AssetName(url)).Some?)
    ensures r.Served? ==> r.response.data == openAsset(AssetName(url)).value
    ensures r.Served? ==> (r.response.status.Some? <==> atLeastLollipop)
    ensures r.Served? ==> r.response == ModelResponse(CutQuery(url), atLeastLollipop, r.response.data)
  {
    if StartsWith(url, ModelUrl) then
      match openAsset(AssetName(url))
      case Some(stream) => Served(ModelResponse(CutQuery(url), atLeastLollipop, stream))
      case None => PassThrough
    else
      PassThrough
  }

  /** The base URL ends in `/`, so a `.json` suffix of the URL is one of the asset name. */
  lemma JsonSuffixOfAssetName(name: string)
    ensures EndsWith(ModelUrl + name, ".json") <==> EndsWith(name, ".json")
  {
    var s := ModelUrl + name;
    ModelUrlShape();
    if |name| >= 5 {
      assert s[|s| - 5..] == name[|name| - 5..];
    } else {
      assert s[|s| - 5..][4 - |name|] == ModelUrl[|ModelUrl| - 1] == '/';
    }
  }

  /**
   * Every request for `ModelUrl + name`, with or without a query, is served
   * exactly when the asset `name` opens, with the content type of `name`.
   */
  lemma ServedFromAsset<S>(name: string, query: string, atLeastLollipop: bool, openAsset: string -> Option<S>)
    requires '?' !in name
    requires query == [] || query[0] == '?'
    ensures var r := ShouldInterceptRequest(ModelUrl + name + query, atLeastLollipop, openAsset);
      && (r.Served? <==> openAsset(name).Some?)
      && (r.Served? ==> r.response.data == openAsset(name).value)
      && (r.Served? ==> r.response.mimeType == (if EndsWith(name, ".json") then "application/json" else "application/octet-stream"))
      && (r.Served? ==> r.response.encoding == (if EndsWith(name, ".json") then "UTF-8" else "binary"))
      && (r.Served? ==> r.response.status == if atLeastLollipop then Some(OkWithCors) else None)
  {
    var url := ModelUrl + name + query;
    ModelUrlShape();
    assert '?' !in ModelUrl + name;
    assert url == (ModelUrl + name) + query;
    CutQueryOf(ModelUrl + name, query);
    assert url[..|ModelUrl|] == ModelUrl;
    assert AssetName(url) == name;
    JsonSuffixOfAssetName(name);
  }

  /** The model descriptor requested with a version query is served as JSON. */
  lemma ModelJsonIsJson<S>(atLeastLollipop: bool, openAsset: string -> Option<S>)
    requires openAsset("model.json").Some?
    ensures var r := ShouldInterceptRequest(ModelUrl + "model.json" + "?v=2", atLeastLollipop, openAsset);
      r.Served? && r.response.mimeType == "application/json" && r.response.encoding == "UTF-8"
  {
    assert '?' !in "model.json";
    assert "model.json"[5..] == ".json";
    ServedFromAsset("model.json", "?v=2", atLeastLollipop, openAsset);
  }

  /** The weight shard is served as binary. */
  lemma ShardIsBinary<S>(atLeastLollipop: bool, openAsset: string -> Option<S>)
    requires openAsset("group1-shard1of1.bin").Some?
    ensures var r := ShouldInterceptRequest(ModelUrl + "group1-shard1of1.bin", atLeastLollipop, openAsset);
      r.Served? && r.response.mimeType == "application/octet-stream" && r.response.encoding == "binary"
  {
    var name := "group1-shard1of1.bin";
    assert '?' !in name;
    assert name[|name| - 1] == 'n' && name[|name| - 5] == '1';
    assert ModelUrl + name + "" == ModelUrl + name;
    ServedFromAsset(name, "", atLeastLollipop, openAsset);
  }
}
