/** The marketplace's connect endpoint: map a provider id to the page that connects an account. */
module ProviderConnect {
  import opened Wrappers
  import opened Text

  /** A redirect with its status, or a JSON error with its status and message. */
  datatype ConnectReply = Redirect(status: int, url: string) | Rejected(status: int, message: string)

  /** The status `NextResponse.redirect` uses when none is given. */
  const RedirectStatus := 307

  const MissingIdMessage := "Missing providerId"
  const ElevenLabsUrl := "https://elevenlabs.io/connect"
  const LmntUrl := "https://lmnt.com/connect"
  const PineconeUrl := "https://app.pinecone.io/"
  const GenericPrefix := "https://example.com/connect?providerId="

  /** The ids with a dedicated connection page. */
  predicate IsKnownId(id: string)
  {
    id == "elevenlabs" || id == "lmnt" || id == "pinecone"
  }

  /**
   * GET. `providerId` is the query parameter (`None` when absent); `encode` stands for
   * `encodeURIComponent`, left uninterpreted.
   */
  function Connect(providerId: Option<string>, encode: string -> string): (r: ConnectReply)
    ensures providerId.None? || providerId == Some("") ==> r == Rejected(400, MissingIdMessage)
    ensures providerId.Some? && providerId.value != [] ==> r.Redirect? && r.status == RedirectStatus
    ensures providerId == Some("elevenlabs") ==> r.url == ElevenLabsUrl
    ensures providerId == Some("lmnt") ==> r.url == LmntUrl
    ensures providerId == Some("pinecone") ==> r.url == PineconeUrl
    ensures providerId.Some? && providerId.value != [] && !IsKnownId(providerId.value)
      ==> r.url == GenericPrefix + encode(providerId.value)
  {
    match providerId
    case None => Rejected(400, MissingIdMessage)
    case Some(id) =>
      if id == [] then Rejected(400, MissingIdMessage)
      else if id == "elevenlabs" then Redirect(RedirectStatus, ElevenLabsUrl)
      else if id == "lmnt" then Redirect(RedirectStatus, LmntUrl)
      else if id == "pinecone" then Redirect(RedirectStatus, PineconeUrl)
      else Redirect(RedirectStatus, GenericPrefix + encode(id))
  }

  /**
   * For any id, the redirect goes to the generic page exactly when the id has no dedicated
   * page, whatever the encoding does: the three dedicated addresses never look generic.
   */
  lemma GenericIffUnknown(id: string, encode: string -> string)
    requires id != []
    ensures StartsWith(Connect(Some(id), encode).url, GenericPrefix) <==> !IsKnownId(id)
  {
    var url := Connect(Some(id), encode).url;
    if !IsKnownId(id) {
      assert url[..|GenericPrefix|] == GenericPrefix;
    } else if id == "elevenlabs" {
      assert url[9] != GenericPrefix[9];
    } else {
      assert url[8] != GenericPrefix[8];
    }
  }
}
