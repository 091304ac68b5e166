/** The operator resolver (FlightOperatorService): find an operator by name,
    otherwise create one, with a logo address chosen from the logo provider's
    response. The HTTP request is the parameter `fetch`: it maps a URL to the
    response body, or to None when the request throws. */
module FlightOperatorService {
  import opened Base
  import opened Store

  /** The logo address tried for a carrier code. */
  function LogoCandidateUrl(logoBase: string, code: string): string {
    logoBase + "/" + code + ".svg"
  }

  /** "not found" occurs somewhere in the lower-cased body. */
  ghost predicate SaysNotFound(body: string) {
    exists i :: OccursAt(ToLower(body), "not found", i)
  }

  /** GetAirlineLogoUrl's decision once the body is known: no logo exactly when
      the lower-cased body contains "not found" somewhere. */
  function LogoUrlFromBody(logoBase: string, code: string, body: string): (r: Option<string>)
    ensures r.None? <==> SaysNotFound(body)
    ensures r.Some? ==> r.value == logoBase + "/" + code + ".svg"
  {
    ContainsNotFoundIff(body);
    if Contains(ToLower(body), "not found") then None else Some(LogoCandidateUrl(logoBase, code))
  }

  lemma ContainsNotFoundIff(body: string)
    ensures Contains(ToLower(body), "not found") <==> SaysNotFound(body)
  {
    ContainsIff(ToLower(body), "not found");
  }

  /** GetAirlineLogoUrl: request the candidate address; a failing request
      propagates, otherwise the body decides. */
  function GetAirlineLogoUrl(logoBase: string, code: string, fetch: string -> Option<string>): (r: Result<Option<string>>)
    ensures r.Err? <==> fetch(logoBase + "/" + code + ".svg").None?
    ensures r.Err? ==> r.error == LogoFetchFailed
    ensures r.Ok? ==> r.value == LogoUrlFromBody(logoBase, code, fetch(logoBase + "/" + code + ".svg").value)
  {
    match fetch(LogoCandidateUrl(logoBase, code))
    case None => Err(LogoFetchFailed)
    case Some(body) => Ok(LogoUrlFromBody(logoBase, code, body))
  }

  /** The test ignores case: a body saying "Not Found" or "NOT FOUND" gives no logo. */
  lemma NotFoundInAnyCase(logoBase: string, code: string, body: string, i: int)
    requires OccursAt(body, "Not Found", i) || OccursAt(body, "NOT FOUND", i)
    ensures LogoUrlFromBody(logoBase, code, body) == None
  {
    var lower := ToLower(body);
    assert lower[i..i + 9] == "not found" by {
      forall k | 0 <= k < 9
        ensures lower[i + k] == "not found"[k]
      {
        assert lower[i + k] == LowerChar(body[i + k]);
        if OccursAt(body, "Not Found", i) {
          assert body[i + k] == body[i..i + 9][k] == "Not Found"[k];
        } else {
          assert body[i + k] == body[i..i + 9][k] == "NOT FOUND"[k];
        }
      }
    }
    assert OccursAt(lower, "not found", i);
    assert SaysNotFound(body);
  }

  /** FindOrCreateOperator, as a transition of the store. */
  function FindOrCreateOperatorSpec(db: Db, name: string, code: string, logoBase: string,
                                    fetch: string -> Option<string>): Resolved<Option<FlightOperator>>
  {
    match FindOperatorByName(db.operators, name)
    case Some(o) => Resolved(db, Ok(Some(o)))
    case None =>
      match GetAirlineLogoUrl(logoBase, code, fetch)
      case Err(e) => Resolved(db, Err(e))
      case Ok(logo) =>
        var created := Saved(AddOperator(db, FlightOperator(0, name, code, logo)));
        Resolved(created, Ok(FindOperatorById(created.operators, db.nextId)))
  }

  /** Look the operator up by name; otherwise fetch the logo, create, save, and
      return the row read back by its new identity. */
  method FindOrCreateOperator(repo: Repository, name: string, code: string, logoBase: string,
                              fetch: string -> Option<string>) returns (r: Result<Option<FlightOperator>>)
    modifies repo
    ensures Resolved(repo.State(), r) == FindOrCreateOperatorSpec(old(repo.State()), name, code, logoBase, fetch)
  {
    var existing := FindOperatorByName(repo.operators, name);
    if existing.Some? {
      return Ok(existing);
    }
    var logo := GetAirlineLogoUrl(logoBase, code, fetch);
    if logo.Err? {
      return Err(logo.error);
    }
    var id := repo.CreateOperator(FlightOperator(0, name, code, logo.value));
    repo.Save();
    r := Ok(FindOperatorById(repo.operators, id));
  }

  // ---------------------------------------------------------------------
  // Properties
  // ---------------------------------------------------------------------

  /** An operator with this exact name is returned as it is; nothing is
      written and the logo provider is not consulted. */
  lemma ExistingOperatorReturned(db: Db, name: string, code: string, logoBase: string,
                                 fetch: string -> Option<string>, otherFetch: string -> Option<string>)
    requires FindOperatorByName(db.operators, name).Some?
    ensures FindOrCreateOperatorSpec(db, name, code, logoBase, fetch)
            == Resolved(db, Ok(FindOperatorByName(db.operators, name)))
    ensures FindOrCreateOperatorSpec(db, name, code, logoBase, fetch)
            == FindOrCreateOperatorSpec(db, name, code, logoBase, otherFetch)
  {
  }

  /** A failing logo request happens before anything is created: the store is unchanged. */
  lemma LogoFailureWritesNothing(db: Db, name: string, code: string, logoBase: string,
                                 fetch: string -> Option<string>)
    requires FindOperatorByName(db.operators, name).None?
    requires fetch(LogoCandidateUrl(logoBase, code)).None?
    ensures FindOrCreateOperatorSpec(db, name, code, logoBase, fetch) == Resolved(db, Err(LogoFetchFailed))
  {
  }

  /** Otherwise exactly one operator is created, with this name, code and logo
      decision, one save is made, nothing else changes, and the row read back
      by the new identity is that operator. */
  lemma NewOperatorCreated(db: Db, name: string, code: string, logoBase: string,
                           fetch: string -> Option<string>)
    requires IdsFresh(db)
    requires FindOperatorByName(db.operators, name).None?
    requires fetch(LogoCandidateUrl(logoBase, code)).Some?
    ensures var created := FlightOperator(db.nextId, name, code,
                             LogoUrlFromBody(logoBase, code, fetch(LogoCandidateUrl(logoBase, code)).value));
            FindOrCreateOperatorSpec(db, name, code, logoBase, fetch)
            == Resolved(db.(operators := db.operators + [created], nextId := db.nextId + 1, saves := db.saves + 1),
                        Ok(Some(created)))
  {
    var created := FlightOperator(db.nextId, name, code,
                     LogoUrlFromBody(logoBase, code, fetch(LogoCandidateUrl(logoBase, code)).value));
    FindAppendedOperator(db.operators, created);
  }

  /** No two stored operators share a name. */
  ghost predicate OneOperatorPerName(operators: seq<FlightOperator>) {
    forall i, j :: 0 <= i < j < |operators| ==> operators[i].name != operators[j].name
  }

  /** Resolution keeps operator names unique and identities fresh, and it never
      removes or alters a stored operator. */
  lemma ResolutionKeepsOperatorsUnique(db: Db, name: string, code: string, logoBase: string,
                                       fetch: string -> Option<string>)
    requires IdsFresh(db) && OneOperatorPerName(db.operators)
    ensures var r := FindOrCreateOperatorSpec(db, name, code, logoBase, fetch);
            IdsFresh(r.db) && OneOperatorPerName(r.db.operators)
            && r.db.operators[..|db.operators|] == db.operators
            && r.db.tickets == db.tickets && r.db.locations == db.locations && r.db.users == db.users
  {
    var r := FindOrCreateOperatorSpec(db, name, code, logoBase, fetch);
    if r.db != db {
      var ops := r.db.operators;
      assert |ops| == |db.operators| + 1 && ops[..|db.operators|] == db.operators;
      assert ops[|db.operators|].name == name;
      forall i, j | 0 <= i < j < |ops|
        ensures ops[i].name != ops[j].name
      {
        if j == |db.operators| {
          assert ops[i] in db.operators;
        }
      }
    }
  }
}
