/** The URLs the client pages build around an encoded query (the template
    literals of `HomePage.tsx` and `ConfigPage.tsx`). */
module ClientUrls {

  /** The server path both pages request. */
  const CIRCLE_PATH := "/api/v1/circle"

  const CLIENT_CHART_URL := "http://localhost:1234/chart?query="
  const CLIENT_PIE_URL := "http://localhost:1234/pie?query="

  /** `${process.env.API_URL}/api/v1/circle?query=${encoded}`. */
  function ServerUrl(apiUrl: string, encoded: string): (url: string)
    ensures |url| == |apiUrl| + |CIRCLE_PATH| + 7 + |encoded|
    ensures url[..|apiUrl|] == apiUrl
    ensures url[|apiUrl|..|apiUrl| + |CIRCLE_PATH|] == CIRCLE_PATH
    ensures url[|apiUrl| + |CIRCLE_PATH|..|url| - |encoded|] == "?query="
    ensures url[|url| - |encoded|..] == encoded
  {
    apiUrl + CIRCLE_PATH + "?query=" + encoded
  }
}
