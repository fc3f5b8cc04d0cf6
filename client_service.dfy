/** The console's client service (src/app/client.service.ts): what the callers
    of each request get back, from the response or the error. */
module ClientService {
  import opened Common
  import opened Http
  import opened AdminModels

  const DefaultError: string := "Erreur lors de l'opération"
  const ForbiddenError: string :=
    "Accès interdit : Vérifiez votre authentification ou vos permissions. Contactez le backend si le problème persiste."
  const NetworkError: string :=
    "Erreur réseau : Impossible de contacter le serveur. Vérifiez votre connexion ou l'URL du serveur."
  const EmptyBody: string := "Réponse vide reçue du serveur"
  const DeleteDefault: string := "Erreur lors de la suppression"

  /** `handleError`: 403, 400, 500 and 0 have their own message; 400 and 500 carry
      the body's message, or its JSON text. */
  function HandleError(e: HttpError): (m: string)
    ensures m != ""
    ensures e.status.None? ==> m == DefaultError
    ensures e.status == Some(403) ==> m == ForbiddenError
    ensures e.status == Some(0) ==> m == NetworkError
    ensures e.status == Some(400) && BodyMessage(e.body) != "" ==> m == "Erreur de données : " + BodyMessage(e.body)
    ensures e.status == Some(500) && BodyMessage(e.body) != "" ==> m == "Erreur serveur : " + BodyMessage(e.body)
  {
    if e.status == Some(403) then ForbiddenError
    else if e.status == Some(400) then "Erreur de données : " + DetailOr(BodyMessage(e.body), e.body, "Données invalides")
    else if e.status == Some(500) then "Erreur serveur : " + DetailOr(BodyMessage(e.body), e.body, "Erreur inconnue")
    else if e.status == Some(0) then NetworkError
    else DefaultError
  }

  /** Any status other than the four gives the default message. */
  lemma OtherStatusDefault(e: HttpError)
    requires e.status.None? || e.status.value !in {0, 400, 403, 500}
    ensures HandleError(e) == DefaultError
  {
  }

  /** `getAllClients`: a missing body is an empty list; an undefined id becomes 0
      and nothing else changes. */
  function NormaliseClients(body: Option<seq<Client>>): (r: seq<Client>)
    ensures body.None? ==> r == []
    ensures body.Some? ==> (|r| == |body.value|
      && forall i :: 0 <= i < |r| ==>
           r[i].id.Some? && (body.value[i].id.Some? ==> r[i].id == body.value[i].id)
           && r[i].(id := body.value[i].id) == body.value[i])
  {
    if body.None? then [] else WithIds(body.value)
  }

  function WithIds(clients: seq<Client>): (r: seq<Client>)
    ensures |r| == |clients|
    ensures forall i :: 0 <= i < |r| ==> r[i] == clients[i].(id := Some(IntOrZero(clients[i].id)))
  {
    if clients == [] then [] else [clients[0].(id := Some(IntOrZero(clients[0].id)))] + WithIds(clients[1..])
  }

  function GetAllClients(o: Outcome<seq<Client>>): (r: Result<seq<Client>>)
    ensures r.Ok? <==> o.Received?
    ensures o.Failed? ==> r == Err(HandleError(o.error)) && r.message != ""
    ensures o.Received? && o.body.None? ==> r == Ok([])
    ensures o.Received? && o.body.Some? ==> |r.value| == |o.body.value|
  {
    match o
    case Failed(e) => Err(HandleError(e))
    case Received(body) => Ok(NormaliseClients(body))
  }

  /** `createClient` / `updateClient` as written: the empty-body error is thrown
      inside the pipeline and then caught by `handleError`, which finds no
      status and replaces it with the default message. */
  function SaveClientAsWritten(o: Outcome<Client>): (r: Result<Client>)
    ensures r.Ok? <==> o.Received? && o.body.Some?
    ensures r.Ok? ==> r.value == o.body.value
    ensures o.Failed? ==> r == Err(HandleError(o.error))
    ensures o.Received? && o.body.None? ==> r == Err(DefaultError)
  {
    ReceiveAsWritten(o, HandleError, EmptyBody)
  }

  lemma AsWrittenLosesEmptyBody()
    ensures SaveClientAsWritten(Received(None)) == Err(DefaultError)
    ensures DefaultError != EmptyBody
  {
    assert DefaultError[0] != EmptyBody[0];
  }

  /** `createClient` / `updateClient` with the empty-body message kept. */
  function SaveClient(o: Outcome<Client>): (r: Result<Client>)
    ensures o.Failed? ==> r == Err(HandleError(o.error))
    ensures o.Received? && o.body.None? ==> r == Err(EmptyBody)
    ensures o.Received? && o.body.Some? ==> r == Ok(o.body.value)
  {
    Receive(o, HandleError, EmptyBody)
  }

  /** A saved client comes back exactly when the server returned one; an empty
      body is reported as such, and that report differs from every HTTP failure. */
  lemma SaveClientOutcomes(o: Outcome<Client>)
    ensures SaveClient(o).Ok? <==> o.Received? && o.body.Some?
    ensures SaveClient(o).Ok? ==> SaveClient(o).value == o.body.value
    ensures SaveClient(o) == Err(EmptyBody) <==> o.Received? && o.body.None?
  {
    if o.Failed? {
      EmptyBodyNotHttpMessage(o.error);
    }
  }

  lemma EmptyBodyNotHttpMessage(e: HttpError)
    ensures HandleError(e) != EmptyBody
  {
    assert EmptyBody[0] == 'R';
    if e.status == Some(400) {
      var d := DetailOr(BodyMessage(e.body), e.body, "Données invalides");
      assert ("Erreur de données : " + d)[0] == 'E';
    } else if e.status == Some(500) {
      var d := DetailOr(BodyMessage(e.body), e.body, "Erreur inconnue");
      assert ("Erreur serveur : " + d)[0] == 'E';
    } else {
      assert |ForbiddenError| != |EmptyBody| && |NetworkError| != |EmptyBody| && DefaultError[0] == 'E';
    }
  }

  /** `deleteClient`'s own error message: the body's `message` when it is an
      object that has one, `Erreur : ` and the body's text for any other truthy
      body, and the default otherwise. */
  function DeleteErrorMessage(e: HttpError): (m: string)
    ensures m != ""
    ensures e.body.ObjectBody? && e.body.message != "" ==> m == e.body.message
    ensures e.body.TextBody? && e.body.text != "" ==> m == "Erreur : " + e.body.text
    ensures e.body.Absent? || e.body.Null? || e.body == TextBody("") ==> m == DeleteDefault
  {
    if e.body.ObjectBody? && e.body.message != "" then e.body.message
    else if BodyInterpolated(e.body) != "" then "Erreur : " + BodyInterpolated(e.body)
    else DeleteDefault
  }

  /** `deleteClient`: nothing on success (`None`), the message on failure. */
  function DeleteClient(failure: Option<HttpError>): (r: Result<()>)
    ensures r.Ok? <==> failure.None?
    ensures r.Err? ==> r.message == DeleteErrorMessage(failure.value) && r.message != ""
  {
    if failure.None? then Ok(()) else Err(DeleteErrorMessage(failure.value))
  }
}
