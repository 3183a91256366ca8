/**
 * The marketplace's install endpoint: validate three fields, then add the provider id to the
 * installed list unless it is already there. The installed list is an explicit state value.
 */
module ProviderInstall {
  import opened Wrappers
  import Providers

  /** The request body's fields; a field that is absent from the JSON is `None`. */
  datatype InstallRequest = InstallRequest(providerId: Option<string>, plan: Option<string>, installationName: Option<string>)

  /** A JSON reply: HTTP status and its `message` field. */
  datatype Reply = Reply(status: int, message: string)

  /** The installed list after the request, and the reply. */
  datatype InstallResult = InstallResult(installed: seq<string>, reply: Reply)

  const MissingFieldsMessage := "Missing required fields"
  const InstalledMessage := "Provider installed successfully"
  const InstallFailedMessage := "Installation failed"

  /** JavaScript truthiness of a string field: present and not empty. */
  predicate Truthy(field: Option<string>)
  {
    field.Some? && field.value != []
  }

  predicate HasRequiredFields(req: InstallRequest)
  {
    Truthy(req.providerId) && Truthy(req.plan) && Truthy(req.installationName)
  }

  /** No id appears twice. */
  predicate NoDuplicates(ids: seq<string>)
  {
    forall i, j :: 0 <= i < j < |ids| ==> ids[i] != ids[j]
  }

  /**
   * POST. `body` is the parsed request body, or the message of the error parsing threw.
   * A parse error answers 500; a missing field answers 400; otherwise the id is appended
   * when absent and the reply is a success. Plan and installation name are not stored,
   * and the id is not checked against the catalogue.
   */
  function Install(installed: seq<string>, body: Result<InstallRequest>): (r: InstallResult)
    ensures body.Err? ==> r.installed == installed && r.reply.status == 500
    ensures body.Err? && body.message != [] ==> r.reply.message == body.message
    ensures body.Err? && body.message == [] ==> r.reply.message == InstallFailedMessage
    ensures body.Ok? && !HasRequiredFields(body.value) ==> r == InstallResult(installed, Reply(400, MissingFieldsMessage))
    ensures body.Ok? && HasRequiredFields(body.value) ==>
      var id := body.value.providerId.value;
      && r.reply == Reply(200, InstalledMessage)
      && (id in installed ==> r.installed == installed)
      && (id !in installed ==> |r.installed| == |installed| + 1 && r.installed[..|installed|] == installed
                               && r.installed[|installed|] == id)
  {
    match body
    case Err(m) => InstallResult(installed, Reply(500, if m == [] then InstallFailedMessage else m))
    case Ok(req) =>
      if !HasRequiredFields(req) then InstallResult(installed, Reply(400, MissingFieldsMessage))
      else
        var id := req.providerId.value;
        var next := if id in installed then installed else installed + [id];
        assert id !in installed ==> next[..|installed|] == installed;
        InstallResult(next, Reply(200, InstalledMessage))
  }

  /** After any request the installed ids are the previous ones plus, on success, the requested id. */
  lemma InstallMembership(installed: seq<string>, body: Result<InstallRequest>, x: string)
    ensures x in Install(installed, body).installed
        <==> x in installed || (body.Ok? && HasRequiredFields(body.value) && x == body.value.providerId.value)
  {
    var r := Install(installed, body);
    if body.Ok? && HasRequiredFields(body.value) && body.value.providerId.value !in installed {
      assert r.installed == installed + [body.value.providerId.value];
    }
  }

  /** Repeating a request changes nothing more: installing is idempotent. */
  lemma InstallIdempotent(installed: seq<string>, body: Result<InstallRequest>)
    ensures Install(Install(installed, body).installed, body) == Install(installed, body)
  {
    var once := Install(installed, body);
    if body.Ok? && HasRequiredFields(body.value) {
      InstallMembership(installed, body, body.value.providerId.value);
    }
  }

  /** A duplicate-free installed list stays duplicate-free. */
  lemma InstallKeepsNoDuplicates(installed: seq<string>, body: Result<InstallRequest>)
    requires NoDuplicates(installed)
    ensures NoDuplicates(Install(installed, body).installed)
  {
    var r := Install(installed, body);
    if body.Ok? && HasRequiredFields(body.value) && body.value.providerId.value !in installed {
      assert r.installed == installed + [body.value.providerId.value];
    }
  }

  /** After a successful install, the listing flags the installed catalogue entry and nothing else changes. */
  lemma InstallThenList(catalogue: seq<Providers.Provider>, installed: seq<string>, body: Result<InstallRequest>)
    requires body.Ok? && HasRequiredFields(body.value)
    ensures var listed := Providers.ListProviders(catalogue, Install(installed, body).installed);
      forall i :: 0 <= i < |listed| ==>
        (listed[i].installed <==> catalogue[i].id in installed || catalogue[i].id == body.value.providerId.value)
  {
    forall x {
      InstallMembership(installed, body, x);
    }
  }
}
