/** Which user a frame request is about (app/frames/route.tsx, `extractFid`
    and the reassignments of `fid` in the handler). Three sources are tried
    in order, each only when what was found so far is falsy: the requester
    FID of a signed frame message, the `userfid` query parameter of the
    request URL, and the `lastFid` carried in the frame state. */
module FidResolution {
  import opened Wrappers
  import opened JsValues

  /** The outcome of `new URL(ctx.url.toString())`: the constructor throws,
      or yields the URL's query as its decoded name/value pairs, in order. */
  datatype UrlInput = Malformed | Parsed(query: seq<(string, string)>)

  /** The parts of the frame context the resolution reads. */
  datatype Context = Context(
    requesterFid: Option<int>,   // ctx.message?.requesterFid
    url: Option<UrlInput>,       // ctx.url
    lastFid: Option<string>      // (ctx.state as State)?.lastFid
  )

  const FidParam: string := "userfid"

  /** Index `i` holds the first query pair named `name`. */
  predicate FirstNamedAt(query: seq<(string, string)>, name: string, i: int) {
    0 <= i < |query| && query[i].0 == name &&
    forall j :: 0 <= j < i ==> query[j].0 != name
  }

  /** `URLSearchParams.get(name)`: the value of the first pair named `name`,
      or null when there is none. */
  function SearchParamsGet(query: seq<(string, string)>, name: string): (r: Option<string>)
    ensures r.None? <==> forall i :: 0 <= i < |query| ==> query[i].0 != name
    ensures r.Some? ==> exists i :: FirstNamedAt(query, name, i) && query[i].1 == r.value
  {
    if query == [] then None
    else if query[0].0 == name then
      assert FirstNamedAt(query, name, 0);
      Some(query[0].1)
    else
      var r := SearchParamsGet(query[1..], name);
      if r.Some? then
        var i :| FirstNamedAt(query[1..], name, i) && query[1..][i].1 == r.value;
        assert FirstNamedAt(query, name, i + 1);
        r
      else
        assert forall i :: 1 <= i < |query| ==> query[i] == query[1..][i - 1];
        r
  }

  /** `extractFid`: the `userfid` parameter, or null when the URL does not
      parse (the exception is swallowed) or has no such parameter. */
  function ExtractFid(url: UrlInput): (r: Option<string>)
    ensures url.Malformed? ==> r.None?
    ensures url.Parsed? ==> (r.Some? <==> exists i :: 0 <= i < |url.query| && url.query[i].0 == FidParam)
    ensures r.Some? ==> exists i :: FirstNamedAt(url.query, FidParam, i) && url.query[i].1 == r.value
  {
    match url
    case Malformed => None
    case Parsed(query) => SearchParamsGet(query, FidParam)
  }

  predicate RequesterTruthy(requesterFid: Option<int>) {
    requesterFid.Some? && requesterFid.value != 0
  }

  /** What the requester FID contributes: its decimal text when it is a
      truthy number. */
  function RequesterHint(requesterFid: Option<int>): Option<string> {
    if RequesterTruthy(requesterFid) then Some(IntToString(requesterFid.value)) else None
  }

  /** What the request URL contributes. */
  function UrlHint(url: Option<UrlInput>): Option<string> {
    if url.Some? then ExtractFid(url.value) else None
  }

  /** The three sources, in the order the handler consults them. */
  function Hints(ctx: Context): seq<Option<string>> {
    [RequesterHint(ctx.requesterFid), UrlHint(ctx.url), ctx.lastFid]
  }

  /** The FID the handler settles on: the first truthy source; when there is
      none, whatever falsy value the URL step left behind (null, or the empty
      string of an empty `userfid=`). */
  function ResolvedFid(ctx: Context): Option<string> {
    var first := FirstTruthy(Hints(ctx));
    if first.Some? then first else UrlHint(ctx.url)
  }

  /** The handler's own step-by-step assignment of `fid`. */
  method ResolveFid(ctx: Context) returns (fid: Option<string>)
    ensures fid == ResolvedFid(ctx)
  {
    fid := None;
    if RequesterTruthy(ctx.requesterFid) {
      fid := Some(IntToString(ctx.requesterFid.value));
    } else if ctx.url.Some? {
      fid := ExtractFid(ctx.url.value);
    }
    if !Truthy(fid) && Truthy(ctx.lastFid) {
      fid := ctx.lastFid;
    }
    assert Hints(ctx)[0] == RequesterHint(ctx.requesterFid);
    assert Hints(ctx)[1] == UrlHint(ctx.url);
    assert Hints(ctx)[2] == ctx.lastFid;
  }

  /** A truthy requester FID wins, whatever the URL and the state hold. */
  lemma RequesterFidWins(ctx: Context)
    requires RequesterTruthy(ctx.requesterFid)
    ensures ResolvedFid(ctx) == Some(IntToString(ctx.requesterFid.value))
    ensures Truthy(ResolvedFid(ctx))
  {
  }

  /** Without a requester FID, a non-empty `userfid` parameter wins over the
      state. */
  lemma UrlFidBeforeState(ctx: Context)
    requires !RequesterTruthy(ctx.requesterFid)
    requires ctx.url.Some? && Truthy(ExtractFid(ctx.url.value))
    ensures ResolvedFid(ctx) == ExtractFid(ctx.url.value)
  {
    assert !Truthy(Hints(ctx)[0]) && Truthy(Hints(ctx)[1]);
  }

  /** When neither the requester nor the URL gives a truthy FID (no URL, a URL
      that does not parse, no `userfid`, or an empty one), a truthy `lastFid`
      is used; otherwise the falsy URL result stands. */
  lemma StateFallback(ctx: Context)
    requires !RequesterTruthy(ctx.requesterFid)
    requires !Truthy(UrlHint(ctx.url))
    ensures Truthy(ctx.lastFid) ==> ResolvedFid(ctx) == ctx.lastFid
    ensures !Truthy(ctx.lastFid) ==> ResolvedFid(ctx) == UrlHint(ctx.url) && !Truthy(ResolvedFid(ctx))
  {
  }

  /** The resolved FID is truthy exactly when one of the three sources is. */
  lemma ResolvedTruthyIffSomeHint(ctx: Context)
    ensures Truthy(ResolvedFid(ctx)) <==>
      (RequesterTruthy(ctx.requesterFid) || Truthy(UrlHint(ctx.url)) || Truthy(ctx.lastFid))
  {
  }

  /** With no hint anywhere, nothing is resolved. */
  lemma NoHintNoFid(ctx: Context)
    requires ctx.requesterFid.None? && ctx.url.None? && ctx.lastFid.None?
    ensures ResolvedFid(ctx) == None
  {
  }

  /** Requester FID 100 beats a URL naming 200. */
  lemma RequesterBeatsUrlExample()
    ensures ResolvedFid(Context(Some(100), Some(Parsed([("userfid", "200")])), Some("300"))) == Some("100")
  {
    RequesterFidWins(Context(Some(100), Some(Parsed([("userfid", "200")])), Some("300")));
    assert NatToDecimal(1) == "1";
    assert NatToDecimal(10) == "10";
    assert IntToString(100) == "100";
  }

  /** URL parameter 200 beats state 300; state 300 alone is used; an empty
      `userfid=` falls through to the state. */
  lemma UrlAndStateExamples()
    ensures ResolvedFid(Context(None, Some(Parsed([("userfid", "200")])), Some("300"))) == Some("200")
    ensures ResolvedFid(Context(None, None, Some("300"))) == Some("300")
    ensures ResolvedFid(Context(Some(0), Some(Parsed([("userfid", "")])), Some("300"))) == Some("300")
    ensures ResolvedFid(Context(None, Some(Parsed([("userfid", "")])), None)) == Some("")
    ensures ResolvedFid(Context(None, Some(Malformed), Some(""))) == None
  {
  }
}
