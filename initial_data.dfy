/** The embedded-JSON extractor, `parse_yt_initial_data`: find the
    `ytInitialData` assignment in a page by one of two textual patterns, tried
    in a fixed order, and decode the text it captures. */
module InitialData {
  import opened PyJson

  /** A regular-expression search: the captured group of the first match, or
      None when the pattern does not match. */
  type Search = Bytes -> Option<Bytes>

  /** The two patterns: the bracket-indexed `window["ytInitialData"] = ...;`
      assignment, and the `var ytInitialData = ...;` declaration. */
  datatype Patterns = Patterns(window: Search, declaration: Search)

  function Order(p: Patterns): seq<Search> {
    [p.window, p.declaration]
  }

  /** Try each pattern in turn. A pattern that does not match is skipped; the
      first that matches decides, and a decoding failure of its capture is
      not caught, so it escapes instead of falling through to the next one. */
  function FirstDecoded(searches: seq<Search>, loads: Bytes -> Option<Json>, page: Bytes): (r: Py<Option<Json>>)
    ensures r.Raise? ==> r.exc == JsonDecodeError
    ensures r == Ok(None) <==> forall k :: 0 <= k < |searches| ==> searches[k](page).None?
    decreases |searches|
  {
    if searches == [] then Ok(None)
    else
      match searches[0](page)
      case None => FirstDecoded(searches[1..], loads, page)
      case Some(raw) =>
        match loads(raw)
        case None => Raise(JsonDecodeError)
        case Some(j) => Ok(Some(j))
  }

  /** `parse_yt_initial_data(page)`: Ok(None) when neither pattern matches. */
  function ParseYtInitialData(p: Patterns, loads: Bytes -> Option<Json>, page: Bytes): Py<Option<Json>> {
    FirstDecoded(Order(p), loads, page)
  }

  /** The result is absent exactly when neither pattern matches. */
  lemma NotFoundIffNoMatch(p: Patterns, loads: Bytes -> Option<Json>, page: Bytes)
    ensures ParseYtInitialData(p, loads, page) == Ok(None) <==> p.window(page).None? && p.declaration(page).None?
  {
    assert Order(p)[0] == p.window && Order(p)[1] == p.declaration;
  }

  /** When the window pattern matches, the declaration pattern is never
      consulted: any other declaration pattern gives the same result, whether
      the capture decodes or not. */
  lemma WindowPatternDecides(p: Patterns, q: Patterns, loads: Bytes -> Option<Json>, page: Bytes)
    requires p.window(page).Some? && q.window(page) == p.window(page)
    ensures ParseYtInitialData(p, loads, page) == ParseYtInitialData(q, loads, page)
    ensures ParseYtInitialData(p, loads, page)
         == if loads(p.window(page).value).None? then Raise(JsonDecodeError) else Ok(loads(p.window(page).value))
  {
  }

  /** The declaration pattern is used only when the window pattern has no match. */
  lemma DeclarationIsFallback(p: Patterns, loads: Bytes -> Option<Json>, page: Bytes)
    requires p.window(page).None? && p.declaration(page).Some?
    ensures ParseYtInitialData(p, loads, page)
         == if loads(p.declaration(page).value).None? then Raise(JsonDecodeError) else Ok(loads(p.declaration(page).value))
  {
    assert Order(p)[1..] == [p.declaration];
    assert ParseYtInitialData(p, loads, page) == FirstDecoded([p.declaration], loads, page);
  }
}
