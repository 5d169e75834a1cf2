/** The decode-or-error effect shared by the chart page and the pie page
    (`ChartPage.tsx` and `PiePage.tsx`): read the `query` search parameter,
    `atob` it, `JSON.parse` the result, and store either the parsed query or
    the formatted error. `atob` and `JSON.parse` are not modelled; `decode`
    stands for their composition and may throw. */
module PageQuery {
  import opened Wrappers
  import opened BaseUtils

  /** The page's two pieces of state, both `null` at first. */
  datatype PageState<Q> = PageState(error: Option<string>, queryData: Option<Q>)

  /** The string `atob` receives: `searchParams.get('query')` is `null` for a
      missing parameter, and `atob(null)` converts it to the string "null". */
  function QueryText(query: Option<string>): (t: string)
    ensures query.Some? ==> t == query.value
    ensures query.None? ==> t == "null"
  {
    if query.None? then "null" else query.value
  }

  /** The state on the page's first render: no error and no query. */
  function Initial<Q>(): PageState<Q> {
    PageState(None, None)
  }

  /** One run of the effect, which React repeats whenever `query` changes: a
      decoded query is stored with `setQueryData` and the error is left as it
      was; a thrown value is formatted and stored with `setError`, and the
      query data is left as it was. Should `formatError` itself raise, the
      effect throws and neither piece of state changes. */
  function LoadQuery<Q>(prior: PageState<Q>, query: Option<string>, decode: string -> Result<Q, Thrown>): (s: PageState<Q>)
    ensures decode(QueryText(query)).Ok? ==>
              s.queryData == Some(decode(QueryText(query)).value) && s.error == prior.error
    ensures decode(QueryText(query)).Err? ==> s.queryData == prior.queryData
    ensures decode(QueryText(query)).Err? ==>
              s.error == if FormatError(decode(QueryText(query)).error, None).Text?
                         then Some(FormatError(decode(QueryText(query)).error, None).text)
                         else prior.error
  {
    match decode(QueryText(query))
    case Ok(parsed) => prior.(queryData := Some(parsed))
    case Err(e) =>
      match FormatError(e, None)
      case Text(message) => prior.(error := Some(message))
      case RaisesTypeError => prior
  }

  /** JavaScript truthiness of an optional string: present and non-empty. */
  predicate Truthy(s: Option<string>) {
    s.Some? && s.value != ""
  }

  /** On the first run, when decoding raises an `Error`, the page keeps no
      query and its error is the `Error`'s message. */
  lemma DecodeErrorStored<Q>(query: Option<string>, decode: string -> Result<Q, Thrown>, message: string)
    requires decode(QueryText(query)) == Err(ErrorObject(message))
    ensures LoadQuery(Initial(), query, decode) == PageState(Some(message), None)
  {
    ErrorObjectFormatsToMessage(message, None);
  }

  /** A re-run sets one piece of state only: after a successful decode the
      error of an earlier failure is still there, and after a failed decode
      the query of an earlier success is still there. */
  lemma RerunKeepsStaleState<Q>(prior: PageState<Q>, query: Option<string>, decode: string -> Result<Q, Thrown>, message: string)
    ensures decode(QueryText(query)).Ok? ==>
              LoadQuery(prior, query, decode) == PageState(prior.error, Some(decode(QueryText(query)).value))
    ensures decode(QueryText(query)) == Err(ErrorObject(message)) ==>
              LoadQuery(prior, query, decode) == PageState(Some(message), prior.queryData)
  {
    if decode(QueryText(query)) == Err(ErrorObject(message)) {
      ErrorObjectFormatsToMessage(message, None);
    }
  }
}
