/** The console's vehicle service (src/app/vehicle.service.ts): what the callers
    of each request get back, from the response or the error. */
module VehicleService {
  import opened Common
  import opened Http
  import opened AdminModels

  const DefaultError: string := "Erreur lors de l'opération"
  const ForbiddenError: string := "Accès interdit : Vérifiez votre authentification ou vos permissions."
  const NetworkError: string :=
    "Erreur réseau : Impossible de contacter le serveur. Vérifiez votre connexion ou l'URL du serveur."
  const EmptyBody: string := "Réponse vide reçue du serveur"

  /** `handleError`: 403, 400, 500, a 200 that is not ok, and 0 have their own
      message; every other status, and an error without one, the default. */
  function HandleError(e: HttpError): (m: string)
    ensures m != ""
    ensures e.status.None? ==> m == DefaultError
    ensures e.status == Some(403) ==> m == ForbiddenError
    ensures e.status == Some(0) ==> m == NetworkError
    ensures e.status == Some(400) && BodyMessage(e.body) != "" ==> m == "Erreur de données : " + BodyMessage(e.body)
    ensures e.status == Some(500) && BodyMessage(e.body) != "" ==> m == "Erreur serveur : " + BodyMessage(e.body)
  {
    if e.status == Some(403) then ForbiddenError
    else if e.status == Some(400) then "Erreur de données : " + DetailOr(BodyMessage(e.body), e.body, "Données invalides")
    else if e.status == Some(500) then "Erreur serveur : " + DetailOr(BodyMessage(e.body), e.body, "Erreur inconnue")
    else if e.status == Some(200) && !e.ok then
      "Erreur serveur : Réponse inattendue - " + DetailOr(BodyText(e.body), e.body, "Contenu non valide")
    else if e.status == Some(0) then NetworkError
    else DefaultError
  }

  /** Any status other than the five gives the default message, and so does a
      200 marked ok. */
  lemma OtherStatusDefault(e: HttpError)
    requires e.status.None? || e.status.value !in {0, 200, 400, 403, 500} || (e.status == Some(200) && e.ok)
    ensures HandleError(e) == DefaultError
  {
  }

  /** A 200 that is not ok is reported as an unexpected answer, with the body's
      text when it has one. */
  lemma UnexpectedAnswer(e: HttpError)
    requires e.status == Some(200) && !e.ok && BodyText(e.body) != ""
    ensures HandleError(e) == "Erreur serveur : Réponse inattendue - " + BodyText(e.body)
  {
  }

  /** `getAllVehicles`: the body, or an empty list without one. */
  function GetAllVehicles(o: Outcome<seq<Vehicle>>): (r: Result<seq<Vehicle>>)
    ensures r.Ok? <==> o.Received?
    ensures o.Received? && o.body.Some? ==> r == Ok(o.body.value)
    ensures o.Received? && o.body.None? ==> r == Ok([])
  {
    match o
    case Failed(e) => Err(HandleError(e))
    case Received(body) => Ok(body.GetOr([]))
  }

  /** `createVehicle`, `updateVehicle` and `getVehicleById` as written: the
      empty-body error is caught by `handleError` and becomes the default message. */
  function VehicleResponseAsWritten(o: Outcome<Vehicle>): (r: Result<Vehicle>)
    ensures r.Ok? <==> o.Received? && o.body.Some?
    ensures r.Ok? ==> r.value == o.body.value
    ensures o.Failed? ==> r == Err(HandleError(o.error))
    ensures o.Received? && o.body.None? ==> r == Err(DefaultError)
  {
    ReceiveAsWritten(o, HandleError, EmptyBody)
  }

  lemma AsWrittenLosesEmptyBody()
    ensures VehicleResponseAsWritten(Received(None)) == Err(DefaultError)
    ensures DefaultError != EmptyBody
  {
    assert DefaultError[0] != EmptyBody[0];
  }

  /** The same calls with the empty-body message kept. */
  function VehicleResponse(o: Outcome<Vehicle>): (r: Result<Vehicle>)
    ensures o.Failed? ==> r == Err(HandleError(o.error))
    ensures o.Received? && o.body.None? ==> r == Err(EmptyBody)
    ensures o.Received? && o.body.Some? ==> r == Ok(o.body.value)
  {
    Receive(o, HandleError, EmptyBody)
  }

  /** A vehicle comes back exactly when the server returned one; an empty body is
      reported as such, and that report differs from every HTTP failure. */
  lemma VehicleResponseOutcomes(o: Outcome<Vehicle>)
    ensures VehicleResponse(o).Ok? <==> o.Received? && o.body.Some?
    ensures VehicleResponse(o).Ok? ==> VehicleResponse(o).value == o.body.value
    ensures VehicleResponse(o) == Err(EmptyBody) <==> o.Received? && o.body.None?
  {
    if o.Failed? {
      EmptyBodyNotHttpMessage(o.error);
    }
  }

  lemma EmptyBodyNotHttpMessage(e: HttpError)
    ensures HandleError(e) != EmptyBody
  {
    assert EmptyBody[0] == 'R';
    if e.status == Some(400) {
      var d := DetailOr(BodyMessage(e.body), e.body, "Données invalides");
      assert ("Erreur de données : " + d)[0] == 'E';
    } else if e.status == Some(500) {
      var d := DetailOr(BodyMessage(e.body), e.body, "Erreur inconnue");
      assert ("Erreur serveur : " + d)[0] == 'E';
    } else if e.status == Some(200) && !e.ok {
      var d := DetailOr(BodyText(e.body), e.body, "Contenu non valide");
      assert ("Erreur serveur : Réponse inattendue - " + d)[0] == 'E';
    } else {
      assert |ForbiddenError| != |EmptyBody| && |NetworkError| != |EmptyBody| && DefaultError[0] == 'E';
    }
  }

  /** `deleteVehicle`: nothing on success (`None`), the handled message on failure. */
  function DeleteVehicle(failure: Option<HttpError>): (r: Result<()>)
    ensures r.Ok? <==> failure.None?
    ensures r.Err? ==> r.message == HandleError(failure.value) && r.message != ""
  {
    if failure.None? then Ok(()) else Err(HandleError(failure.value))
  }
}
