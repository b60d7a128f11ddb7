/** The landing page handler of pkg/handlers/home.go. */
module HomeHandler {
  import opened Wrappers
  import opened Http

  const Greeting := "Namaste World! \U{1F64F}"

  /**
   * Home answers every request with the same greeting; only the URL string
   * exactly "/" gets 308 Permanent Redirect, every other URL, "/v1" and "/?q=1"
   * included, gets 200.
   */
  function Home(url: string): (r: Response)
    ensures r.status == StatusPermanentRedirect <==> url == "/"
    ensures r.status == StatusOK <==> url != "/"
    ensures r.body == Some(map["message" := Str(Greeting)])
    ensures r.cookies == [] && r.errors == [] && !r.aborted
  {
    if url == "/" then Json(StatusPermanentRedirect, map["message" := Str(Greeting)])
    else Json(StatusOK, map["message" := Str(Greeting)])
  }

  /** The two cases of the handler's table test, and a URL that differs from "/" only by a query. */
  lemma HomeExamples()
    ensures Home("/").status == 308
    ensures Home("/v1").status == 200
    ensures Home("/?lang=en").status == 200
    ensures Home("/").body == Home("/v1").body
  {
  }
}
