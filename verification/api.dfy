/** The request helper of the script: where requests go, which local path a
    download is written to, the token check, and how the Accept header
    decides between raw bytes and a decoded listing. */
module Api {
  import opened Common
  import opened Listing

  const ApiBase := "https://api.github.com/repos/"
  const Owner := "Alexsik76"
  const Repo := "configs"
  const JsonAccept := "application/vnd.github.v3+json"
  const RawAccept := "application/vnd.github.v3.raw"
  const StagingDir := "/tmp"

  /** Everything in a request URL that comes before the API path. */
  const UrlPrefix := ApiBase + Owner + "/" + Repo + "/"

  /** The full endpoint for an API path of the fixed repository. */
  function RequestUrl(apiPath: string): (url: string)
    ensures |url| == |UrlPrefix| + |apiPath|
    ensures url[..|UrlPrefix|] == UrlPrefix && url[|UrlPrefix|..] == apiPath
  {
    ApiBase + Owner + "/" + Repo + "/" + apiPath
  }

  /** Distinct API paths are requested at distinct URLs. */
  lemma RequestUrlInjective(p: string, q: string)
    ensures RequestUrl(p) == RequestUrl(q) ==> p == q
  {
  }

  /** The listing of the repository root. */
  const RootPath := "contents/"

  /** The listing of one top-level folder. */
  function FolderPath(dir: string): (path: string)
    ensures |path| == |"contents/"| + |dir|
    ensures path[..|"contents/"|] == "contents/" && path[|"contents/"|..] == dir
  {
    "contents/" + dir
  }

  /** The content of one file inside a top-level folder. */
  function ContentPath(dir: string, file: string): (path: string)
    ensures path == FolderPath(dir) + "/" + file
  {
    "contents/" + dir + "/" + file
  }

  /** In a content path, the first slash after `contents/` ends the folder name. */
  lemma FirstSlashAfterPrefix(dir: string, file: string)
    requires '/' !in dir
    ensures ContentPath(dir, file)[|"contents/"| + |dir|] == '/'
    ensures forall i :: |"contents/"| <= i < |"contents/"| + |dir| ==> ContentPath(dir, file)[i] != '/'
  {
  }

  /** The folder and file are recovered from a content path when the folder
      name has no slash, as the names of repository entries never do. */
  lemma {:induction false} ContentPathInjective(d1: string, f1: string, d2: string, f2: string)
    requires '/' !in d1 && '/' !in d2
    requires ContentPath(d1, f1) == ContentPath(d2, f2)
    ensures d1 == d2 && f1 == f2
  {
    var p1 := ContentPath(d1, f1);
    var p2 := ContentPath(d2, f2);
    var n := |"contents/"|;
    FirstSlashAfterPrefix(d1, f1);
    FirstSlashAfterPrefix(d2, f2);
    assert |d1| == |d2|;
    assert d1 == p1[n..n + |d1|];
    assert d2 == p2[n..n + |d2|];
    assert f1 == p1[n + |d1| + 1..];
    assert f2 == p2[n + |d2| + 1..];
  }

  /** The path the file is written to: the typed line, or the staging
      directory joined with the file name when the line is empty. */
  function Destination(typed: string, file: string): (dest: string)
    ensures typed != "" ==> dest == typed
    ensures typed == "" ==> |dest| == |StagingDir| + 1 + |file|
    ensures typed == "" ==> dest[..|StagingDir| + 1] == StagingDir + "/" && dest[|StagingDir| + 1..] == file
  {
    if typed == "" then StagingDir + "/" + file else typed
  }

  /** The token read from the terminal: the run stops when it is empty. */
  function CheckToken(token: string): (r: Result<string>)
    ensures r.Success? <==> |token| > 0
    ensures r.Success? ==> r.value == token
    ensures r.Failure? ==> r.error == EmptyToken
  {
    if token == "" then Failure(EmptyToken) else Success(token)
  }

  /** A response body as delivered: its bytes, and what UTF-8 decoding
      followed by JSON parsing makes of them (`None` when either fails). */
  datatype Body = Body(bytes: seq<byte>, decoded: Option<Decoded>)

  /** What the request helper hands back. */
  datatype Reply = Raw(content: seq<byte>) | Structured(value: Decoded)

  /** The branch on the Accept header for a request to `url`. */
  function Interpret(url: string, accept: string, body: Body): (r: Result<Reply>)
    ensures accept == RawAccept ==> r == Success(Raw(body.bytes))
    ensures accept != RawAccept ==> r.Success? ==> r.value.Structured?
    ensures accept != RawAccept ==> (r.Failure? <==> body.decoded.None?)
    ensures accept != RawAccept && r.Success? ==> Some(r.value.value) == body.decoded
    ensures r.Failure? ==> r.error == ParseFailure(url)
  {
    if accept == RawAccept then Success(Raw(body.bytes))
    else
      match body.decoded
      case None => Failure(ParseFailure(url))
      case Some(v) => Success(Structured(v))
  }
}
