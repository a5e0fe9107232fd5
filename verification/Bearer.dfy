/** The bearer token of a request (server/src/proxy.rs, `extract_bearer_token`). */
module Bearer {
  import opened Wrappers
  import opened Text
  import opened Dispatcher

  const SCHEME := "Bearer"

  /** The authorization header is absent, is not visible text, or is text. */
  datatype Header = Absent | Unreadable | Readable(text: string)

  function ExtractBearerToken(header: Header): Extracted {
    match header
    case Absent => Err(MissingAuthorizationHeader)
    case Unreadable => Err(InvalidAuthorizationHeader)
    case Readable(text) =>
      match SplitOnce(text, ' ')
      case Some(parts) =>
        if parts.0 != SCHEME then Err(InvalidAuthorizationScheme)
        else if parts.1 != "" then Ok(parts.1)
        else Err(InvalidAuthorizationHeader)
      case None => Err(InvalidAuthorizationHeader)
  }

  /** A token is found exactly in "Bearer", a space, and the token, which may not be empty. */
  lemma {:induction false} TokenExactly(header: Header, token: Token)
    ensures ExtractBearerToken(header) == Ok(token) <==>
            token != "" && header == Readable(SCHEME + " " + token)
  {
    if header.Readable? {
      assert ' ' !in SCHEME;
      SplitOnceExact(header.text, ' ', SCHEME, token);
      match SplitOnce(header.text, ' ')
      case Some(parts) => SplitOnceExact(header.text, ' ', parts.0, parts.1);
      case None =>
    }
  }

  /** What is answered to every other header. */
  lemma {:induction false} ErrorsExactly(header: Header)
    ensures ExtractBearerToken(header) == Err(MissingAuthorizationHeader) <==> header == Absent
    ensures ExtractBearerToken(header) == Err(InvalidAuthorizationScheme) <==>
            header.Readable? && ' ' in header.text && !("Bearer " <= header.text)
    ensures ExtractBearerToken(header) == Err(InvalidAuthorizationHeader) <==>
            header == Unreadable || (header.Readable? && (' ' !in header.text || header.text == "Bearer "))
  {
    if header.Readable? {
      assert ' ' !in SCHEME && SCHEME + " " == "Bearer ";
      SplitOnceExact(header.text, ' ', "", "");
      match SplitOnce(header.text, ' ')
      case Some(parts) =>
        SplitOnceExact(header.text, ' ', parts.0, parts.1);
        if "Bearer " <= header.text {
          assert header.text == SCHEME + " " + header.text[7..];
          SplitOnceExact(header.text, ' ', SCHEME, header.text[7..]);
        }
      case None =>
    }
  }
}
