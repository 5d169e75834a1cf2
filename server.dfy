/** The chart server (`packages/server/src/index.ts`): its configuration, the
    CORS origin check, its own `formatError`, and the `getChart` handler. The
    handler is modelled over abstract effects. The browser steps it awaits are
    recorded in order, and which step throws, and what it throws, is a
    parameter. */
module Server {
  import opened Wrappers
  import opened JsText
  import BaseUtils
  import ClientUrls
  import Charts
  import ChartPage
  import PageQuery
  import ColorUtils

  const BASE_URL := "http://localhost"
  const API_PORT: nat := 8080
  const CLIENT_PORT: nat := 1234

  /** `${config.baseUrl}:${config.clientPort}`. */
  function ClientOrigin(): string {
    BASE_URL + ":" + NatToDecimal(CLIENT_PORT)
  }

  lemma ClientOriginValue()
    ensures ClientOrigin() == "http://localhost:1234"
  {
    assert NatToDecimal(1) == "1";
    assert NatToDecimal(12) == "12";
    assert NatToDecimal(123) == "123";
  }

  /** `allowedDomains`: the client's origin only. */
  function AllowedDomains(): (domains: seq<string>)
    ensures forall o :: o in domains <==> o == "http://localhost:1234"
  {
    ClientOriginValue();
    [ClientOrigin()]
  }

  /** The arguments `corsOptions.origin` passes to its callback. */
  datatype CorsVerdict = CorsVerdict(error: Option<string>, valid: bool)

  /** `corsOptions.origin`: an absent or empty origin (falsy) and an allowed
      domain are accepted with a null error; any other origin is refused with
      an `Error` naming it. */
  function CorsOrigin(origin: Option<string>): (v: CorsVerdict)
    ensures v.valid <==> origin.None? || origin.value == "" || origin.value == "http://localhost:1234"
    ensures v.valid ==> v.error.None?
    ensures !v.valid ==> v.error == Some(origin.value + " is not an allowed domain")
  {
    ClientOriginValue();
    var isValid := origin.None? || origin.value == "" || origin.value in AllowedDomains();
    CorsVerdict(if isValid then None else Some(origin.value + " is not an allowed domain"), isValid)
  }

  /** The server's `formatError`: the client's helper without a fallback
      parameter. */
  function FormatError(error: BaseUtils.Thrown): (r: BaseUtils.Formatted)
    ensures error.Str? ==> r == BaseUtils.Text(error.s)
    ensures error.Undefined? || error.Other? || (error.Obj? && error.message.None?) ==>
              r == BaseUtils.Text(BaseUtils.UNKNOWN_ERROR)
  {
    match error
    case Null => BaseUtils.RaisesTypeError
    case Obj(Some(message), _) => BaseUtils.ToStringOf(message)
    case Str(s) => BaseUtils.Text(s)
    case _ => BaseUtils.Text(BaseUtils.UNKNOWN_ERROR)
  }

  /** The two copies agree: the server's `formatError` behaves as the
      client's with no fallback given. */
  lemma FormatErrorAgreesWithClient(error: BaseUtils.Thrown)
    ensures FormatError(error) == BaseUtils.FormatError(error, None)
  {
  }

  /** The route the server registers. */
  const CHART_ROUTE := "/api/v1/chart"

  /** The client asks for `/api/v1/circle`, which is not the server's route:
      the request path of every URL the client builds differs from it. */
  lemma ClientRouteMissesServer(apiUrl: string, encoded: string)
    ensures var url := ClientUrls.ServerUrl(apiUrl, encoded);
            |url| >= |apiUrl| + |ClientUrls.CIRCLE_PATH|
            && url[|apiUrl|..|apiUrl| + |CHART_ROUTE|] != CHART_ROUTE
  {
    var url := ClientUrls.ServerUrl(apiUrl, encoded);
    assert url[|apiUrl| + 8] == 'c' && url[|apiUrl| + 9] == 'i';
    assert CHART_ROUTE[9] == 'h';
  }

  /** `.page > #chart` selects an element with id `chart` directly inside the
      page's root element. */
  const SELECTED_ID := "chart"
  const CHART_SELECTOR := ".page > #" + SELECTED_ID

  /** `../public/chart.png`, resolved against the server's directory: one
      file for every query. */
  const IMAGE_PATH := "../public/chart.png"

  const QUERY_REQUIRED := "Query is required"

  /** An awaited step of `getChart`. */
  datatype Effect =
    | LaunchBrowser
    | NewPage
    | Goto(url: string)
    | WaitForSelector(selector: string)
    | QuerySelector(selector: string)
    | Screenshot(path: string)
    | ClosePage
    | CloseBrowser

  /** What the handler sends: the PNG file, or status 400 with `{ error }`. */
  datatype Response = ImageFile(contentType: string, path: string) | ErrorJson(status: int, error: string)

  /** The URL the headless browser opens: the raw query, not re-encoded. */
  function RenderUrl(query: string): (url: string)
    ensures url == "http://localhost:1234/chart?query=" + query
  {
    ClientOriginValue();
    ClientOrigin() + "/chart?query=" + query
  }

  /** The steps `getChart` awaits, in order, for a present query. */
  function RenderSteps(query: string): (steps: seq<Effect>)
    ensures |steps| == 8
    ensures steps[0] == LaunchBrowser && steps[|steps| - 1] == CloseBrowser
  {
    [LaunchBrowser, NewPage, Goto(RenderUrl(query)), WaitForSelector(CHART_SELECTOR),
     QuerySelector(CHART_SELECTOR), Screenshot(IMAGE_PATH), ClosePage, CloseBrowser]
  }

  /** The `catch` block: status 400 with the formatted error, or nothing sent
      when `formatError` itself raises. */
  function Caught(e: BaseUtils.Thrown): (r: Option<Response>)
    ensures FormatError(e).Text? ==> r == Some(ErrorJson(400, FormatError(e).text))
    ensures FormatError(e).RaisesTypeError? ==> r.None?
  {
    match FormatError(e)
    case Text(t) => Some(ErrorJson(400, t))
    case RaisesTypeError => None
  }

  /** `getChart`. `query` is `req.query.query`; `failure`, when present, names
      the index of the step that throws and the value it throws. Returns the
      steps completed and the response sent. */
  method GetChart(query: Option<string>, failure: Option<(nat, BaseUtils.Thrown)>)
    returns (effects: seq<Effect>, response: Option<Response>)
    ensures query.None? || query.value == "" ==>
              effects == [] && response == Some(ErrorJson(400, QUERY_REQUIRED))
    ensures query.Some? && query.value != "" && (failure.None? || failure.value.0 >= 8) ==>
              effects == RenderSteps(query.value) && response == Some(ImageFile("image/png", IMAGE_PATH))
    ensures query.Some? && query.value != "" && failure.Some? && failure.value.0 < 8 ==>
              effects == RenderSteps(query.value)[..failure.value.0] && response == Caught(failure.value.1)
  {
    effects := [];
    if query.None? || query.value == "" {
      BaseUtils.ErrorObjectFormatsToMessage(QUERY_REQUIRED, None);
      response := Caught(BaseUtils.ErrorObject(QUERY_REQUIRED));
      return;
    }
    var steps := RenderSteps(query.value);
    var i := 0;
    while i < |steps|
      invariant 0 <= i <= |steps|
      invariant effects == steps[..i]
      invariant failure.Some? ==> failure.value.0 >= i
    {
      if failure.Some? && failure.value.0 == i {
        response := Caught(failure.value.1);
        return;
      }
      effects := effects + [steps[i]];
      i := i + 1;
    }
    response := Some(ImageFile("image/png", IMAGE_PATH));
  }

  /** A request that fails after the browser is launched and before it is
      closed leaves the browser open: nothing in the `catch` block closes it. */
  method BrowserLeftOpenOnFailure(query: string, step: nat, e: BaseUtils.Thrown)
    returns (effects: seq<Effect>)
    requires query != "" && 1 <= step < 8
    ensures LaunchBrowser in effects && CloseBrowser !in effects
  {
    var response;
    effects, response := GetChart(Some(query), Some((step, e)));
    assert effects[0] == LaunchBrowser;
  }

  /** Were every step to succeed, each request would launch a browser and write
      the same file, whatever its query: no cache is consulted. Against the
      client it opens, the steps do not all succeed (`RequestAgainstChartPage`). */
  method EveryRequestRenders(q1: string, q2: string)
    returns (e1: seq<Effect>, r1: Option<Response>, e2: seq<Effect>, r2: Option<Response>)
    requires q1 != "" && q2 != ""
    ensures LaunchBrowser in e1 && LaunchBrowser in e2
    ensures Screenshot(IMAGE_PATH) in e1 && Screenshot(IMAGE_PATH) in e2
    ensures r1 == r2 == Some(ImageFile("image/png", IMAGE_PATH))
  {
    e1, r1 := GetChart(Some(q1), None);
    e2, r2 := GetChart(Some(q2), None);
    assert e1[0] == e2[0] == LaunchBrowser;
    assert e1[5] == e2[5] == Screenshot(IMAGE_PATH);
  }

  /** A request against the page the server actually opens. `/chart` routes to
      `ChartPage`, which renders no element with id `chart` for any query, so
      `waitForSelector` never finds one and throws once it times out (its
      message is `timeoutMessage`). The trace stops before the screenshot and
      before `browser.close`, and the client receives status 400. */
  method RequestAgainstChartPage(query: string, decode: string -> Result<Charts.QueryData, BaseUtils.Thrown>,
                                 draw: nat -> ColorUtils.ColorDraw, timeoutMessage: string)
    returns (effects: seq<Effect>, response: Option<Response>)
    requires query != ""
    ensures LaunchBrowser in effects && WaitForSelector(CHART_SELECTOR) !in effects
    ensures Screenshot(IMAGE_PATH) !in effects && CloseBrowser !in effects
    ensures response == Some(ErrorJson(400, timeoutMessage))
  {
    var state := PageQuery.LoadQuery(PageQuery.Initial(), Some(query), decode);
    var ids := ChartPage.PageChildIds(state, draw);
    if SELECTED_ID in ids {
      effects, response := GetChart(Some(query), None);
    } else {
      BaseUtils.ErrorObjectFormatsToMessage(timeoutMessage, None);
      effects, response := GetChart(Some(query), Some((3, BaseUtils.ErrorObject(timeoutMessage))));
      assert effects == RenderSteps(query)[..3];
    }
  }
}
