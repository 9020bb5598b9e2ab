/** The records of the `dto` package: the canonical CEP record, the two
    upstream schemas, and the response a query sends. Each record's
    `Validate` is an ordered chain of guards that reports the error of the
    first guard that fails; each constructor returns either the record,
    field for field as given, or that error, never a partial record. */
module Dto {
  import opened Wrappers
  import Shared
  import JsonText

  // ---------------------------------------------------------------------
  // Ordered guard chains
  // ---------------------------------------------------------------------

  /** One guard of a `Validate` chain: whether it passes, and the error it
      reports when it does not. */
  datatype Guard = Guard(ok: bool, err: string)

  /** Runs the guards in order and stops at the first that fails. */
  function FirstFailure(guards: seq<Guard>): (r: Option<string>)
    ensures r == None <==> forall i :: 0 <= i < |guards| ==> guards[i].ok
    ensures r.Some? ==> exists i :: 0 <= i < |guards| && FailsFirstAt(guards, i) && r.value == guards[i].err
  {
    if guards == [] then None
    else if !guards[0].ok then
      assert FailsFirstAt(guards, 0);
      Some(guards[0].err)
    else
      var r := FirstFailure(guards[1..]);
      if r.Some? then
        var i :| 0 <= i < |guards| - 1 && FailsFirstAt(guards[1..], i) && r.value == guards[1..][i].err;
        assert FailsFirstAt(guards, i + 1);
        r
      else
        assert forall i :: 1 <= i < |guards| ==> guards[i] == guards[1..][i - 1];
        r
  }

  /** Guard `i` is the first that fails. */
  predicate FailsFirstAt(guards: seq<Guard>, i: int) {
    0 <= i < |guards| && !guards[i].ok && forall j :: 0 <= j < i ==> guards[j].ok
  }

  /** At most one guard fails first, so the error of a chain is determined. */
  lemma FirstFailureUnique(guards: seq<Guard>, i: int, k: int)
    requires FailsFirstAt(guards, i) && FailsFirstAt(guards, k)
    ensures i == k
  {
  }

  /** The chain reports the error of whichever guard fails first. */
  lemma FirstFailureIs(guards: seq<Guard>, i: int)
    requires FailsFirstAt(guards, i)
    ensures FirstFailure(guards) == Some(guards[i].err)
  {
    var r := FirstFailure(guards);
    assert !guards[i].ok;
    var k :| 0 <= k < |guards| && FailsFirstAt(guards, k) && r.value == guards[k].err;
    FirstFailureUnique(guards, i, k);
  }

  // ---------------------------------------------------------------------
  // The canonical record
  // ---------------------------------------------------------------------

  const StateNotFound := "state not found"
  const NamesEmpty := "city, neighborhood and street must not be empty"

  /** The JSON keys of the canonical record, in field order. */
  const CepKeys: seq<string> := ["cep", "state", "city", "neighborhood", "street"]

  datatype Cep = Cep(cep: string, state: string, city: string, neighborhood: string, street: string)
  {
    /** The guards of `Validate`, in the order they are checked. */
    function Guards(): seq<Guard> {
      [ Guard(Shared.ValidateCep(cep).0, Shared.CepFormatError),
        Guard(Shared.ValidateStateShort(state), StateNotFound),
        Guard(city != "" && neighborhood != "" && street != "", NamesEmpty) ]
    }

    /** `(*Cep).Validate`: accepts a CEP with or without its dash, a listed
        state code and non-empty city, neighborhood and street; otherwise
        the error of the first of these checks that fails. */
    function Validate(): (err: Option<string>)
      ensures err == None <==>
                && (Shared.ValidateCepWithDash(cep).0 || Shared.ValidateCepWithoutDash(cep).0)
                && Shared.ValidateStateShort(state)
                && city != "" && neighborhood != "" && street != ""
      ensures err.Some? ==> exists i :: FailsFirstAt(Guards(), i) && err.value == Guards()[i].err
    {
      var g := Guards();
      assert (forall i :: 0 <= i < |g| ==> g[i].ok) <==> g[0].ok && g[1].ok && g[2].ok;
      FirstFailure(g)
    }

    /** The field values in key order. */
    function Values(): seq<string> {
      [cep, state, city, neighborhood, street]
    }

    /** `(*Cep).ToJson`: an invalid record is refused with its validation
        error; a valid one is written as a JSON object with the keys cep,
        state, city, neighborhood and street in that order, which reads
        back as the same record. */
    function ToJson(): (r: Result<string, string>)
      ensures r.Err? <==> Validate().Some?
      ensures r.Err? ==> Validate() == Some(r.error)
      ensures r.Ok? ==> r.value == JsonText.Object(CepKeys, Values())
      ensures r.Ok? ==> CepFromJson(r.value) == Some(this)
    {
      match Validate()
      case Some(e) => Err(e)
      case None =>
        JsonText.ObjectRoundTrip(CepKeys, Values());
        Ok(JsonText.Object(CepKeys, Values()))
    }
  }

  /** `dto.Cep{}`: the record every failure response carries. */
  const EmptyCep := Cep("", "", "", "", "")

  /** What a query sends on its channel: a record, and the error, if any,
      that stopped the query. Failures carry `EmptyCep`. */
  datatype Response = Response(cep: Cep, err: Option<string>)

  /** Reads back the layout `ToJson` writes (keys in field order, no white
      space); the inverse of `ToJson`, not a general JSON decoder. */
  function CepFromJson(text: string): Option<Cep> {
    match JsonText.ReadObject(text, CepKeys)
    case Some(vs) => Some(Cep(vs[0], vs[1], vs[2], vs[3], vs[4]))
    case None => None
  }

  /** `NewCep`: the record with exactly the given fields if it validates,
      and the validation error otherwise. */
  function NewCep(cep: string, state: string, city: string, neighborhood: string, street: string)
    : (r: Result<Cep, string>)
    ensures r.Ok? <==> Cep(cep, state, city, neighborhood, street).Validate() == None
    ensures r.Ok? ==> r.value.cep == cep && r.value.state == state && r.value.city == city
                      && r.value.neighborhood == neighborhood && r.value.street == street
    ensures r.Err? ==> Cep(cep, state, city, neighborhood, street).Validate() == Some(r.error)
  {
    var c := Cep(cep, state, city, neighborhood, street);
    match c.Validate()
    case Some(e) => Err(e)
    case None => Ok(c)
  }

  /** The zero record fails validation, so `ToJson` refuses it. */
  lemma EmptyCepRefused()
    ensures EmptyCep.Validate() == Some(Shared.CepFormatError)
    ensures EmptyCep.ToJson() == Err(Shared.CepFormatError)
  {
    assert !Shared.ValidateCep("").0;
    assert FailsFirstAt(EmptyCep.Guards(), 0);
  }

  /** `(*Cep).Validate` checks in a fixed order: a bad CEP is reported
      before a bad state, and a bad state before an empty name. */
  lemma CepValidateOrder(c: Cep)
    ensures !Shared.ValidateCep(c.cep).0 ==> c.Validate() == Some(Shared.CepFormatError)
    ensures Shared.ValidateCep(c.cep).0 && !Shared.ValidateStateShort(c.state) ==>
              c.Validate() == Some(StateNotFound)
    ensures Shared.ValidateCep(c.cep).0 && Shared.ValidateStateShort(c.state) &&
            (c.city == "" || c.neighborhood == "" || c.street == "") ==>
              c.Validate() == Some(NamesEmpty)
  {
    var g := c.Guards();
    if !g[0].ok { FirstFailureIs(g, 0); }
    else if !g[1].ok { FirstFailureIs(g, 1); }
    else if !g[2].ok { FirstFailureIs(g, 2); }
  }

  /** A CEP is accepted with and without its dash, and a seven-digit one
      is refused, whatever the other fields hold. */
  lemma CepAcceptsBothForms(c: Cep)
    requires Shared.ValidateStateShort(c.state)
    requires c.city != "" && c.neighborhood != "" && c.street != ""
    ensures c.(cep := "39408-078").Validate() == None
    ensures c.(cep := "39408078").Validate() == None
    ensures c.(cep := "3940807").Validate() == Some(Shared.CepFormatError)
  {
    assert Shared.ValidateCepWithDash("39408-078").0;
    assert Shared.ValidateCepWithoutDash("39408078").0;
    CepValidateOrder(c.(cep := "3940807"));
  }

  // ---------------------------------------------------------------------
  // The Brasilapi schema
  // ---------------------------------------------------------------------

  /** The upstream providers a Brasilapi answer may name. */
  const Services: seq<string> := ["viacep", "widenet", "correios", "correios-alt", "open-cep"]

  const ServiceNotFound := "service not found"

  datatype Brasilapi = Brasilapi(cep: string, state: string, city: string, neighborhood: string,
                                 street: string, service: string)
  {
    /** The guards of `Validate`, in the order they are checked. */
    function Guards(): seq<Guard> {
      [ Guard(Shared.ValidateCepWithoutDash(cep).0, Shared.CepFormatError),
        Guard(Shared.ValidateStateShort(state), StateNotFound),
        Guard(service in Services, ServiceNotFound),
        Guard(city != "" && neighborhood != "" && street != "", NamesEmpty) ]
    }

    /** `(*Brasilapi).Validate`: an undashed eight-digit CEP, a listed
        state code, a listed service and non-empty city, neighborhood and
        street; otherwise the error of the first check that fails. */
    function Validate(): (err: Option<string>)
      ensures err == None <==>
                && |cep| == 8 && Shared.AllDigits(cep)
                && Shared.ValidateStateShort(state)
                && service in Services
                && city != "" && neighborhood != "" && street != ""
      ensures err.Some? ==> exists i :: FailsFirstAt(Guards(), i) && err.value == Guards()[i].err
    {
      var g := Guards();
      assert (forall i :: 0 <= i < |g| ==> g[i].ok) <==> g[0].ok && g[1].ok && g[2].ok && g[3].ok;
      FirstFailure(g)
    }
  }

  /** `NewBrasilapi`: the record with exactly the given fields if it
      validates, and the validation error otherwise. */
  function NewBrasilapi(cep: string, state: string, city: string, neighborhood: string,
                        street: string, service: string): (r: Result<Brasilapi, string>)
    ensures r.Ok? <==> Brasilapi(cep, state, city, neighborhood, street, service).Validate() == None
    ensures r.Ok? ==> r.value.cep == cep && r.value.state == state && r.value.city == city
                      && r.value.neighborhood == neighborhood && r.value.street == street
                      && r.value.service == service
    ensures r.Err? ==> Brasilapi(cep, state, city, neighborhood, street, service).Validate() == Some(r.error)
  {
    var b := Brasilapi(cep, state, city, neighborhood, street, service);
    match b.Validate()
    case Some(e) => Err(e)
    case None => Ok(b)
  }

  /** `NewBrasilapiFromJson`, given what `json.Unmarshal` makes of the
      text: a decoding error is returned as it is; a decoded record is
      returned only if it validates, and its validation error otherwise. */
  function NewBrasilapiFromJson(unmarshal: string -> Result<Brasilapi, string>, jsonString: string)
    : (r: Result<Brasilapi, string>)
    ensures unmarshal(jsonString).Err? ==> r == Err(unmarshal(jsonString).error)
    ensures r.Ok? <==> unmarshal(jsonString).Ok? && unmarshal(jsonString).value.Validate() == None
    ensures r.Ok? ==> unmarshal(jsonString) == Ok(r.value)
    ensures r.Err? && unmarshal(jsonString).Ok? ==> unmarshal(jsonString).value.Validate() == Some(r.error)
  {
    match unmarshal(jsonString)
    case Err(e) => Err(e)
    case Ok(b) =>
      match b.Validate()
      case Some(e) => Err(e)
      case None => Ok(b)
  }

  /** `(*Brasilapi).Validate` checks in a fixed order: CEP, state, service,
      then the names. */
  lemma BrasilapiValidateOrder(b: Brasilapi)
    ensures !Shared.ValidateCepWithoutDash(b.cep).0 ==> b.Validate() == Some(Shared.CepFormatError)
    ensures Shared.ValidateCepWithoutDash(b.cep).0 && !Shared.ValidateStateShort(b.state) ==>
              b.Validate() == Some(StateNotFound)
    ensures Shared.ValidateCepWithoutDash(b.cep).0 && Shared.ValidateStateShort(b.state) &&
            b.service !in Services ==>
              b.Validate() == Some(ServiceNotFound)
    ensures Shared.ValidateCepWithoutDash(b.cep).0 && Shared.ValidateStateShort(b.state) &&
            b.service in Services && (b.city == "" || b.neighborhood == "" || b.street == "") ==>
              b.Validate() == Some(NamesEmpty)
  {
    var g := b.Guards();
    if !g[0].ok { FirstFailureIs(g, 0); }
    else if !g[1].ok { FirstFailureIs(g, 1); }
    else if !g[2].ok { FirstFailureIs(g, 2); }
    else if !g[3].ok { FirstFailureIs(g, 3); }
  }

  /** A dashed CEP, even a well-formed one, is not a Brasilapi CEP. */
  lemma BrasilapiRejectsDash(b: Brasilapi)
    requires Shared.ValidateCepWithDash(b.cep).0
    ensures b.Validate() == Some(Shared.CepFormatError)
  {
    BrasilapiValidateOrder(b);
  }

  /** "open" is not a listed service: a record that passes the CEP and
      state checks is refused with the service error. */
  lemma BrasilapiRejectsOpen(b: Brasilapi)
    requires Shared.ValidateCepWithoutDash(b.cep).0 && Shared.ValidateStateShort(b.state)
    ensures b.(service := "open").Validate() == Some(ServiceNotFound)
  {
    assert "open" !in Services;
    BrasilapiValidateOrder(b.(service := "open"));
  }

  // ---------------------------------------------------------------------
  // The Viacep schema
  // ---------------------------------------------------------------------

  const UfNotFound := "uf not found"
  const EstadoNotFound := "estado not found"
  const RegiaoNotFound := "regiao not found"
  const PlacesEmpty := "localidade, bairro and logradouro must not be empty"

  datatype Viacep = Viacep(cep: string, logradouro: string, complemento: string, unidade: string,
                           bairro: string, localidade: string, uf: string, estado: string,
                           regiao: string, ibge: string, gia: string, ddd: string, siafi: string)
  {
    /** The guards of `Validate`, in the order they are checked. */
    function Guards(): seq<Guard> {
      [ Guard(Shared.ValidateCepWithDash(cep).0, Shared.CepFormatError),
        Guard(Shared.ValidateStateShort(uf), UfNotFound),
        Guard(Shared.ValidateStateLong(estado), EstadoNotFound),
        Guard(Shared.ValidateRegiao(regiao), RegiaoNotFound),
        Guard(localidade != "" && bairro != "" && logradouro != "", PlacesEmpty) ]
    }

    /** `(*Viacep).Validate`: a dashed CEP, a listed short state, a listed
        long state name, a listed region, each checked on its own, and
        non-empty localidade, bairro and logradouro; otherwise the error of
        the first check that fails. The other six fields are free. */
    function Validate(): (err: Option<string>)
      ensures err == None <==>
                && |cep| == 9 && cep[5] == '-' && Shared.AllDigits(cep[..5]) && Shared.AllDigits(cep[6..])
                && Shared.ValidateStateShort(uf)
                && Shared.ValidateStateLong(estado)
                && Shared.ValidateRegiao(regiao)
                && localidade != "" && bairro != "" && logradouro != ""
      ensures err.Some? ==> exists i :: FailsFirstAt(Guards(), i) && err.value == Guards()[i].err
    {
      var g := Guards();
      assert (forall i :: 0 <= i < |g| ==> g[i].ok) <==> g[0].ok && g[1].ok && g[2].ok && g[3].ok && g[4].ok;
      FirstFailure(g)
    }
  }

  /** `NewViacep`: the record with exactly the given fields if it
      validates, and the validation error otherwise. */
  function NewViacep(cep: string, logradouro: string, complemento: string, unidade: string,
                     bairro: string, localidade: string, uf: string, estado: string,
                     regiao: string, ibge: string, gia: string, ddd: string, siafi: string)
    : (r: Result<Viacep, string>)
    ensures var v := Viacep(cep, logradouro, complemento, unidade, bairro, localidade, uf, estado,
                            regiao, ibge, gia, ddd, siafi);
            && (r.Ok? <==> v.Validate() == None)
            && (r.Ok? ==> r.value == v)
            && (r.Err? ==> v.Validate() == Some(r.error))
  {
    var v := Viacep(cep, logradouro, complemento, unidade, bairro, localidade, uf, estado,
                    regiao, ibge, gia, ddd, siafi);
    match v.Validate()
    case Some(e) => Err(e)
    case None => Ok(v)
  }

  /** `NewViacepFromJson`, given what `json.Unmarshal` makes of the text:
      a decoding error is returned as it is; a decoded record is returned
      only if it validates, and its validation error otherwise. */
  function NewViacepFromJson(unmarshal: string -> Result<Viacep, string>, jsonString: string)
    : (r: Result<Viacep, string>)
    ensures unmarshal(jsonString).Err? ==> r == Err(unmarshal(jsonString).error)
    ensures r.Ok? <==> unmarshal(jsonString).Ok? && unmarshal(jsonString).value.Validate() == None
    ensures r.Ok? ==> unmarshal(jsonString) == Ok(r.value)
    ensures r.Err? && unmarshal(jsonString).Ok? ==> unmarshal(jsonString).value.Validate() == Some(r.error)
  {
    match unmarshal(jsonString)
    case Err(e) => Err(e)
    case Ok(v) =>
      match v.Validate()
      case Some(e) => Err(e)
      case None => Ok(v)
  }

  /** `(*Viacep).Validate` checks in a fixed order: CEP, uf, estado,
      regiao, then the place names. */
  lemma ViacepValidateOrder(v: Viacep)
    ensures !Shared.ValidateCepWithDash(v.cep).0 ==> v.Validate() == Some(Shared.CepFormatError)
    ensures Shared.ValidateCepWithDash(v.cep).0 && !Shared.ValidateStateShort(v.uf) ==>
              v.Validate() == Some(UfNotFound)
    ensures Shared.ValidateCepWithDash(v.cep).0 && Shared.ValidateStateShort(v.uf) &&
            !Shared.ValidateStateLong(v.estado) ==>
              v.Validate() == Some(EstadoNotFound)
    ensures Shared.ValidateCepWithDash(v.cep).0 && Shared.ValidateStateShort(v.uf) &&
            Shared.ValidateStateLong(v.estado) && !Shared.ValidateRegiao(v.regiao) ==>
              v.Validate() == Some(RegiaoNotFound)
    ensures Shared.ValidateCepWithDash(v.cep).0 && Shared.ValidateStateShort(v.uf) &&
            Shared.ValidateStateLong(v.estado) && Shared.ValidateRegiao(v.regiao) &&
            (v.localidade == "" || v.bairro == "" || v.logradouro == "") ==>
              v.Validate() == Some(PlacesEmpty)
  {
    var g := v.Guards();
    if !g[0].ok { FirstFailureIs(g, 0); }
    else if !g[1].ok { FirstFailureIs(g, 1); }
    else if !g[2].ok { FirstFailureIs(g, 2); }
    else if !g[3].ok { FirstFailureIs(g, 3); }
    else if !g[4].ok { FirstFailureIs(g, 4); }
  }

  /** Complemento, unidade, ibge, gia, ddd and siafi never change the
      outcome of validation. */
  lemma ViacepFreeFields(v: Viacep, complemento: string, unidade: string, ibge: string,
                         gia: string, ddd: string, siafi: string)
    ensures v.(complemento := complemento, unidade := unidade, ibge := ibge,
               gia := gia, ddd := ddd, siafi := siafi).Validate() == v.Validate()
  {
  }

  /** The short and the long state name are checked separately and never
      against each other: any listed code goes with any listed name. */
  lemma ViacepStatesNotCrossChecked(v: Viacep, i: int, j: int)
    requires v.Validate() == None
    requires 0 <= i < |Shared.StatesShort| && 0 <= j < |Shared.StatesLong|
    ensures v.(uf := Shared.StatesShort[i], estado := Shared.StatesLong[j]).Validate() == None
  {
  }

  /** Because the long-name list spells three states differently, a record
      that passes the CEP and uf checks but names its estado "Paraíba",
      "Piauí" or "Espírito Santo" is refused with "estado not found". */
  lemma ViacepRefusesStandardSpellings(v: Viacep)
    requires Shared.ValidateCepWithDash(v.cep).0 && Shared.ValidateStateShort(v.uf)
    ensures v.(estado := "Paraíba").Validate() == Some(EstadoNotFound)
    ensures v.(estado := "Piauí").Validate() == Some(EstadoNotFound)
    ensures v.(estado := "Espírito Santo").Validate() == Some(EstadoNotFound)
  {
    Shared.NoParaiba();
    Shared.NoPiaui();
    Shared.NoEspiritoSantoAccented();
    ViacepValidateOrder(v.(estado := "Paraíba"));
    ViacepValidateOrder(v.(estado := "Piauí"));
    ViacepValidateOrder(v.(estado := "Espírito Santo"));
  }

  /** An undashed CEP, even a well-formed one, is not a Viacep CEP. */
  lemma ViacepRejectsUndashed(v: Viacep)
    requires Shared.ValidateCepWithoutDash(v.cep).0
    ensures v.Validate() == Some(Shared.CepFormatError)
  {
    ViacepValidateOrder(v);
  }
}
