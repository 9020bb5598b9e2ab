/** The sequential part of the query task of the `usecase` package: one
    query for one service builds its URL, checks the shared context, reads
    the HTTP outcome, and sends at most one response on its channel,
    cancelling the shared context only after a successful one.

    The outside world is an input: what building the request reports for a
    URL, what the HTTP round trip returns, and what `json.Unmarshal` makes
    of a body. The channel is the query's outbox, the sequence of responses
    sent on it; the shared context is an object both queries of a race
    hold, whose `done` flag `Cancel` sets. */
module Usecase {
  import opened Wrappers
  import opened Dto
  import GoStrings
  import Shared

  const CepPlaceholder := "{{cep}}"
  const BrasilapiBase := "https://brasilapi.com.br/api/cep/v1/"
  const ViacepBase := "http://viacep.com.br/ws/"
  const ViacepSuffix := "/json/"

  /** The URL templates, `https://brasilapi.com.br/api/cep/v1/{{cep}}` and
      `http://viacep.com.br/ws/{{cep}}/json/`. */
  const BrasilapiTemplate := BrasilapiBase + CepPlaceholder
  const ViacepTemplate := ViacepBase + CepPlaceholder + ViacepSuffix

  /** A body holding this text is Viacep's answer for an unknown CEP. */
  const NotFoundSentinel := "\"erro\": \"true\""

  const TimeExceeded := "time exceeded"
  const NotFound := "not found"
  const BadRequest := "cep must have 8 digits"
  const InternalServerError := "internal server error"
  const ServiceUnavailable := "service unavailable"
  const UnknownError := "unknown error"
  const ReadFailure := "fail to read the body response: "

  /** Which body extractor a query holds in its `ExtractCepFromBody` field. */
  datatype Extractor = BrasilapiExtractor | ViacepExtractor

  /** What `json.Unmarshal` makes of a text, for each upstream schema. */
  datatype Json = Json(brasilapi: string -> Result<Brasilapi, string>,
                       viacep: string -> Result<Viacep, string>)

  /** The body of a 200 answer: its text, or the error reading it gave. */
  datatype Body = Unreadable(msg: string) | Body(text: string)

  /** What `http.DefaultClient.Do` returns: a transport error, or a status
      code with a body. */
  datatype Reply = TransportError(msg: string) | Reply(status: int, body: Body)

  /** Everything a query learns from outside the model: the error building
      a GET request for a URL gives, if any; the reply to the request; and
      the JSON decoder. */
  datatype World = World(newRequest: string -> Option<string>, reply: Reply, json: Json)

  // ---------------------------------------------------------------------
  // Normalisation: from an upstream schema to the canonical record
  // ---------------------------------------------------------------------

  /** The Brasilapi fields the canonical record keeps; `service` is dropped. */
  function BrasilapiToCep(b: Brasilapi): (c: Cep)
    ensures b.Validate() == None ==> c.Validate() == None
  {
    Cep(b.cep, b.state, b.city, b.neighborhood, b.street)
  }

  /** The service tag does not reach the canonical record. */
  lemma BrasilapiServiceDropped(b: Brasilapi, service: string)
    ensures BrasilapiToCep(b.(service := service)) == BrasilapiToCep(b)
  {
  }

  /** The Viacep fields the canonical record keeps: cep, uf as the state,
      localidade as the city, bairro as the neighborhood and logradouro as
      the street. Estado, regiao and the rest never reach it. */
  function ViacepToCep(v: Viacep): (c: Cep)
    ensures v.Validate() == None ==> c.Validate() == None
  {
    Cep(v.cep, v.uf, v.localidade, v.bairro, v.logradouro)
  }

  /** Estado, regiao and the free-form Viacep fields do not reach the
      canonical record. */
  lemma ViacepExtrasDropped(v: Viacep, estado: string, regiao: string, complemento: string,
                            unidade: string, ibge: string, gia: string, ddd: string, siafi: string)
    ensures ViacepToCep(v.(estado := estado, regiao := regiao, complemento := complemento,
                           unidade := unidade, ibge := ibge, gia := gia, ddd := ddd, siafi := siafi))
         == ViacepToCep(v)
  {
  }

  /** What `BrasilapiExtractCepFromBody` makes of a body: the remapped
      record if the body decodes to a valid Brasilapi record, and the
      decoding or validation error otherwise. */
  function BrasilapiExtract(unmarshal: string -> Result<Brasilapi, string>, body: string)
    : (r: Result<Cep, string>)
    ensures r.Ok? <==> NewBrasilapiFromJson(unmarshal, body).Ok?
    ensures r.Ok? ==> r.value == BrasilapiToCep(NewBrasilapiFromJson(unmarshal, body).value)
    ensures r.Ok? ==> r.value.Validate() == None
    ensures r.Err? ==> r.error == NewBrasilapiFromJson(unmarshal, body).error
  {
    match NewBrasilapiFromJson(unmarshal, body)
    case Err(e) => Err(e)
    case Ok(b) => Ok(BrasilapiToCep(b))
  }

  /** What `ViacepExtractCepFromBody` makes of a body. */
  function ViacepExtract(unmarshal: string -> Result<Viacep, string>, body: string)
    : (r: Result<Cep, string>)
    ensures r.Ok? <==> NewViacepFromJson(unmarshal, body).Ok?
    ensures r.Ok? ==> r.value == ViacepToCep(NewViacepFromJson(unmarshal, body).value)
    ensures r.Ok? ==> r.value.Validate() == None
    ensures r.Err? ==> r.error == NewViacepFromJson(unmarshal, body).error
  {
    match NewViacepFromJson(unmarshal, body)
    case Err(e) => Err(e)
    case Ok(v) => Ok(ViacepToCep(v))
  }

  /** The extraction a query's extractor performs. */
  function Extract(extractor: Extractor, json: Json, body: string): (r: Result<Cep, string>)
    ensures r.Ok? ==> r.value.Validate() == None
  {
    match extractor
    case BrasilapiExtractor => BrasilapiExtract(json.brasilapi, body)
    case ViacepExtractor => ViacepExtract(json.viacep, body)
  }

  // ---------------------------------------------------------------------
  // What each step sends and whether it cancels
  // ---------------------------------------------------------------------

  /** The responses a step sends, in order, and whether it cancels the
      shared context after them. */
  datatype Effect = Effect(sent: seq<Response>, cancels: bool)

  const Silent := Effect([], false)

  /** One failure response carrying the empty record, and no cancel. */
  function Failure(msg: string): Effect {
    Effect([Response(EmptyCep, Some(msg))], false)
  }

  /** The discipline every query keeps: it sends at most one response; a
      failure carries the empty record; a success carries a record that
      passes `(*Cep).Validate`; and it cancels exactly when it sent a
      success. */
  predicate Disciplined(e: Effect) {
    && |e.sent| <= 1
    && (e.cancels <==> |e.sent| == 1 && e.sent[0].err == None)
    && forall r :: r in e.sent ==>
         && (r.err == None ==> r.cep.Validate() == None)
         && (r.err != None ==> r.cep == EmptyCep)
  }

  /** The `switch res.StatusCode` of `executeQuery`: 200 is handled by
      reading the body, every other status is a failure with a fixed
      message. */
  function StatusError(status: int): (r: Option<string>)
    ensures r == None <==> status == 200
    ensures status == 408 ==> r == Some(TimeExceeded)
    ensures status == 404 ==> r == Some(NotFound)
    ensures status == 400 ==> r == Some(BadRequest)
    ensures status == 500 ==> r == Some(InternalServerError)
    ensures status == 503 ==> r == Some(ServiceUnavailable)
    ensures status !in {200, 400, 404, 408, 500, 503} ==> r == Some(UnknownError)
  {
    if status == 200 then None
    else if status == 408 then Some(TimeExceeded)
    else if status == 404 then Some(NotFound)
    else if status == 400 then Some(BadRequest)
    else if status == 500 then Some(InternalServerError)
    else if status == 503 then Some(ServiceUnavailable)
    else Some(UnknownError)
  }

  /** `processHttpResponseOk`: an unreadable body or the not-found
      sentinel is a failure before the extractor is consulted; an extractor
      failure is the one response the extractor sends; otherwise the
      extracted record is sent and the context is cancelled. */
  function ProcessOkEffect(extractor: Extractor, json: Json, body: Body): (e: Effect)
    ensures Disciplined(e)
  {
    match body
    case Unreadable(msg) => Failure(ReadFailure + msg)
    case Body(text) =>
      if GoStrings.Contains(text, NotFoundSentinel) then Failure(NotFound)
      else
        match Extract(extractor, json, text)
        case Err(err) => Failure(err)
        case Ok(cep) => Effect([Response(cep, None)], true)
  }

  /** `executeQuery`: a transport error or a status other than 200 is one
      failure response; a 200 is processed. */
  function ExecuteEffect(extractor: Extractor, json: Json, reply: Reply): (e: Effect)
    ensures Disciplined(e)
  {
    match reply
    case TransportError(msg) => Failure(msg)
    case Reply(status, body) =>
      match StatusError(status)
      case Some(msg) => Failure(msg)
      case None => ProcessOkEffect(extractor, json, body)
  }

  /** `GetCep`: a request that cannot be built is a failure whatever the
      context; otherwise a context already done means nothing is sent;
      otherwise the request is executed. */
  function GetCepEffect(extractor: Extractor, template: string, cep: string, done: bool, world: World)
    : (e: Effect)
    ensures Disciplined(e)
    ensures e.cancels ==> !done
  {
    var url := GoStrings.ReplaceFirst(template, CepPlaceholder, cep);
    match world.newRequest(url)
    case Some(err) => Failure(err)
    case None => if done then Silent else ExecuteEffect(extractor, world.json, world.reply)
  }

  // ---------------------------------------------------------------------
  // The query object
  // ---------------------------------------------------------------------

  /** The cancellable context shared by the queries of one race. */
  class Context {
    var done: bool

    constructor ()
      ensures !done
    {
      done := false;
    }

    /** The `context.CancelFunc`: marks the context done. */
    method Cancel()
      modifies this
      ensures done
    {
      done := true;
    }
  }

  /** `CepQuery`: one query of one service. Only the channel changes once
      the query is built; `outbox` is everything sent on it. */
  class CepQuery {
    const ctx: Context
    const cep: string
    const serviceName: string
    const url: string
    const extractor: Extractor
    var outbox: seq<Response>

    constructor (ctx: Context, cep: string, serviceName: string, url: string, extractor: Extractor)
      ensures this.ctx == ctx && this.cep == cep && this.serviceName == serviceName
      ensures this.url == url && this.extractor == extractor && outbox == []
    {
      this.ctx := ctx;
      this.cep := cep;
      this.serviceName := serviceName;
      this.url := url;
      this.extractor := extractor;
      outbox := [];
    }

    /** `c.Channel <- r` */
    method Send(r: Response)
      modifies this
      ensures outbox == old(outbox) + [r]
    {
      outbox := outbox + [r];
    }

    /** `(*CepQuery).GetCep`, after its random delay: prepare the request,
        stop if the shared context is already done, execute otherwise. */
    method GetCep(world: World)
      modifies this, ctx
      ensures outbox == old(outbox) + GetCepEffect(extractor, url, cep, old(ctx.done), world).sent
      ensures ctx.done == (old(ctx.done) || GetCepEffect(extractor, url, cep, old(ctx.done), world).cancels)
    {
      var request, shouldReturn := PrepareUrl(this, world.newRequest);
      if shouldReturn {
        return;
      }
      if ctx.done {
        return;
      }
      ExecuteQuery(this, world.reply, world.json);
    }
  }

  /** `prepareUrl`: substitutes the CEP for the first `{{cep}}` of the
      template; if no request can be built for that URL, sends the error
      and tells the caller to stop. */
  method PrepareUrl(c: CepQuery, newRequest: string -> Option<string>)
    returns (url: string, shouldReturn: bool)
    modifies c
    ensures url == GoStrings.ReplaceFirst(c.url, CepPlaceholder, c.cep)
    ensures shouldReturn <==> newRequest(url).Some?
    ensures c.outbox == old(c.outbox) + (if shouldReturn then [Response(EmptyCep, newRequest(url))] else [])
  {
    url := GoStrings.ReplaceFirst(c.url, CepPlaceholder, c.cep);
    var err := newRequest(url);
    if err.Some? {
      c.Send(Response(EmptyCep, err));
      return url, true;
    }
    return url, false;
  }

  /** `executeQuery`; the goroutine it starts for a 200 answer is run to
      completion in place, as it is the last thing the query does. */
  method ExecuteQuery(c: CepQuery, reply: Reply, json: Json)
    modifies c, c.ctx
    ensures c.outbox == old(c.outbox) + ExecuteEffect(c.extractor, json, reply).sent
    ensures c.ctx.done == (old(c.ctx.done) || ExecuteEffect(c.extractor, json, reply).cancels)
  {
    match reply
    case TransportError(msg) =>
      c.Send(Response(EmptyCep, Some(msg)));
    case Reply(status, body) =>
      if status == 200 {
        ProcessHttpResponseOk(c, body, json);
      } else if status == 408 {
        c.Send(Response(EmptyCep, Some(TimeExceeded)));
      } else if status == 404 {
        c.Send(Response(EmptyCep, Some(NotFound)));
      } else if status == 400 {
        c.Send(Response(EmptyCep, Some(BadRequest)));
      } else if status == 500 {
        c.Send(Response(EmptyCep, Some(InternalServerError)));
      } else if status == 503 {
        c.Send(Response(EmptyCep, Some(ServiceUnavailable)));
      } else {
        c.Send(Response(EmptyCep, Some(UnknownError)));
      }
  }

  /** `processHttpResponseOk`: send, then cancel, only on success. */
  method ProcessHttpResponseOk(c: CepQuery, body: Body, json: Json)
    modifies c, c.ctx
    ensures c.outbox == old(c.outbox) + ProcessOkEffect(c.extractor, json, body).sent
    ensures c.ctx.done == (old(c.ctx.done) || ProcessOkEffect(c.extractor, json, body).cancels)
  {
    match body
    case Unreadable(msg) =>
      c.Send(Response(EmptyCep, Some(ReadFailure + msg)));
    case Body(text) =>
      if GoStrings.Contains(text, NotFoundSentinel) {
        c.Send(Response(EmptyCep, Some(NotFound)));
        return;
      }
      var cep, shouldReturn := ExtractCepFromBody(c, json, text);
      if shouldReturn {
        return;
      }
      c.Send(Response(cep, None));
      c.ctx.Cancel();
  }

  /** Calls the extractor the query holds. */
  method ExtractCepFromBody(c: CepQuery, json: Json, body: string) returns (cep: Cep, shouldReturn: bool)
    modifies c
    ensures shouldReturn <==> Extract(c.extractor, json, body).Err?
    ensures !shouldReturn ==> cep == Extract(c.extractor, json, body).value && c.outbox == old(c.outbox)
    ensures shouldReturn ==> cep == EmptyCep
    ensures shouldReturn ==> c.outbox == old(c.outbox) + [Response(EmptyCep, Some(Extract(c.extractor, json, body).error))]
  {
    match c.extractor
    case BrasilapiExtractor =>
      cep, shouldReturn := BrasilapiExtractCepFromBody(c, json.brasilapi, body);
    case ViacepExtractor =>
      cep, shouldReturn := ViacepExtractCepFromBody(c, json.viacep, body);
  }

  /** `BrasilapiExtractCepFromBody`: on a decoding or validation error,
      sends that error and returns the empty record and `true`; otherwise
      returns the remapped record and `false`, sending nothing. */
  method BrasilapiExtractCepFromBody(c: CepQuery, unmarshal: string -> Result<Brasilapi, string>, body: string)
    returns (cep: Cep, shouldReturn: bool)
    modifies c
    ensures shouldReturn <==> BrasilapiExtract(unmarshal, body).Err?
    ensures !shouldReturn ==> cep == BrasilapiExtract(unmarshal, body).value && c.outbox == old(c.outbox)
    ensures shouldReturn ==> cep == EmptyCep
    ensures shouldReturn ==> c.outbox == old(c.outbox) + [Response(EmptyCep, Some(BrasilapiExtract(unmarshal, body).error))]
  {
    var cepdto := NewBrasilapiFromJson(unmarshal, body);
    if cepdto.Err? {
      c.Send(Response(EmptyCep, Some(cepdto.error)));
      return EmptyCep, true;
    }
    cep := Cep(cepdto.value.cep, cepdto.value.state, cepdto.value.city,
               cepdto.value.neighborhood, cepdto.value.street);
    return cep, false;
  }

  /** `ViacepExtractCepFromBody`: as for Brasilapi, with the Viacep
      remapping. */
  method ViacepExtractCepFromBody(c: CepQuery, unmarshal: string -> Result<Viacep, string>, body: string)
    returns (cep: Cep, shouldReturn: bool)
    modifies c
    ensures shouldReturn <==> ViacepExtract(unmarshal, body).Err?
    ensures !shouldReturn ==> cep == ViacepExtract(unmarshal, body).value && c.outbox == old(c.outbox)
    ensures shouldReturn ==> cep == EmptyCep
    ensures shouldReturn ==> c.outbox == old(c.outbox) + [Response(EmptyCep, Some(ViacepExtract(unmarshal, body).error))]
  {
    var cepdto := NewViacepFromJson(unmarshal, body);
    if cepdto.Err? {
      c.Send(Response(EmptyCep, Some(cepdto.error)));
      return EmptyCep, true;
    }
    cep := Cep(cepdto.value.cep, cepdto.value.uf, cepdto.value.localidade,
               cepdto.value.bairro, cepdto.value.logradouro);
    return cep, false;
  }

  /** `NewQueryBrasilapi` */
  method NewQueryBrasilapi(ctx: Context, cep: string) returns (q: CepQuery)
    ensures fresh(q) && q.ctx == ctx && q.cep == cep && q.outbox == []
    ensures q.url == BrasilapiTemplate && q.serviceName == "Brasilapi" && q.extractor == BrasilapiExtractor
  {
    q := new CepQuery(ctx, cep, "Brasilapi", BrasilapiTemplate, BrasilapiExtractor);
  }

  /** `NewCepQueryViacep` */
  method NewCepQueryViacep(ctx: Context, cep: string) returns (q: CepQuery)
    ensures fresh(q) && q.ctx == ctx && q.cep == cep && q.outbox == []
    ensures q.url == ViacepTemplate && q.serviceName == "Viacep" && q.extractor == ViacepExtractor
  {
    q := new CepQuery(ctx, cep, "Viacep", ViacepTemplate, ViacepExtractor);
  }

  // ---------------------------------------------------------------------
  // Properties of a query
  // ---------------------------------------------------------------------

  /** Substituting into a template whose text before `{{cep}}` holds no
      `{` puts the CEP exactly where the placeholder was, whatever the CEP
      holds. */
  lemma UrlFor(prefix: string, suffix: string, cep: string)
    requires '{' !in prefix
    ensures GoStrings.ReplaceFirst(prefix + CepPlaceholder + suffix, CepPlaceholder, cep) == prefix + cep + suffix
  {
    GoStrings.ReplaceAfterPrefix(prefix, CepPlaceholder, cep, suffix);
  }

  lemma BrasilapiRequestUrl(cep: string)
    ensures GoStrings.ReplaceFirst(BrasilapiTemplate, CepPlaceholder, cep) == BrasilapiBase + cep
  {
    UrlFor(BrasilapiBase, "", cep);
    assert BrasilapiBase + CepPlaceholder + "" == BrasilapiTemplate;
    assert BrasilapiBase + cep + "" == BrasilapiBase + cep;
  }

  lemma ViacepRequestUrl(cep: string)
    ensures GoStrings.ReplaceFirst(ViacepTemplate, CepPlaceholder, cep) == ViacepBase + cep + ViacepSuffix
  {
    UrlFor(ViacepBase, ViacepSuffix, cep);
  }

  /** A status other than 200 is one failure response with that status's
      message, whatever the body holds. */
  lemma OtherStatusIgnoresBody(extractor: Extractor, json: Json, status: int, body: Body)
    requires status != 200
    ensures ExecuteEffect(extractor, json, Reply(status, body)) == Failure(StatusError(status).value)
    ensures ExecuteEffect(extractor, json, Reply(status, body)) == ExecuteEffect(extractor, json, Reply(status, Body("")))
  {
  }

  /** "Not found" arrives two ways with the same outcome: as a 404, and as
      a 200 whose body holds the sentinel, which the extractor then never
      sees. */
  lemma NotFoundTwoWays(extractor: Extractor, json: Json, text: string, other: Body)
    requires GoStrings.Contains(text, NotFoundSentinel)
    ensures ExecuteEffect(extractor, json, Reply(200, Body(text))) == Failure(NotFound)
    ensures ExecuteEffect(extractor, json, Reply(404, other)) == Failure(NotFound)
  {
  }

  /** Once the shared context is done, a query whose request can be built
      sends nothing and cancels nothing, whatever the service would have
      answered. */
  lemma CancelledQuerySilent(extractor: Extractor, template: string, cep: string, world: World)
    requires world.newRequest(GoStrings.ReplaceFirst(template, CepPlaceholder, cep)) == None
    ensures GetCepEffect(extractor, template, cep, true, world) == Silent
  {
  }

  /** A request that cannot be built is reported even after the context is
      done, since the request is prepared before the context is checked. */
  lemma RequestFailureReportedWhenCancelled(extractor: Extractor, template: string, cep: string, world: World)
    requires world.newRequest(GoStrings.ReplaceFirst(template, CepPlaceholder, cep)).Some?
    ensures GetCepEffect(extractor, template, cep, true, world)
         == Failure(world.newRequest(GoStrings.ReplaceFirst(template, CepPlaceholder, cep)).value)
  {
  }

  /** A query cancels the shared context exactly when its context was not
      done, its request was built, the service answered 200 with a readable
      body free of the not-found sentinel, and the body extracts to a
      record; the record sent is then the extracted one. */
  lemma CancelsExactlyOnSuccess(extractor: Extractor, template: string, cep: string, done: bool, world: World)
    ensures GetCepEffect(extractor, template, cep, done, world).cancels <==>
      && !done
      && world.newRequest(GoStrings.ReplaceFirst(template, CepPlaceholder, cep)) == None
      && world.reply.Reply? && world.reply.status == 200 && world.reply.body.Body?
      && !GoStrings.Contains(world.reply.body.text, NotFoundSentinel)
      && Extract(extractor, world.json, world.reply.body.text).Ok?
    ensures GetCepEffect(extractor, template, cep, done, world).cancels ==>
      GetCepEffect(extractor, template, cep, done, world).sent
        == [Response(Extract(extractor, world.json, world.reply.body.text).value, None)]
  {
  }

  /** The Viacep record the service gives for CEP 39408-078. */
  const MontesClarosViacep := Viacep("39408-078", "Avenida Herlindo Silveira", "", "", "Ibituruna",
                                     "Montes Claros", "MG", "Minas Gerais", "Sudeste", "3143302", "", "38", "4865")

  lemma MontesClarosFieldsListed()
    ensures Shared.ValidateCepWithDash("39408-078").0
    ensures Shared.ValidateStateShort("MG")
  {
    assert Shared.StatesShort[12] == "MG";
  }

  lemma MinasGeraisListed()
    ensures Shared.ValidateStateLong("Minas Gerais")
    ensures Shared.ValidateRegiao("Sudeste")
  {
    assert Shared.StatesLong[12] == "Minas Gerais";
    assert Shared.Regioes[1] == "Sudeste";
  }

  /** The Viacep record for 39408-078 passes Viacep validation. */
  lemma MontesClarosValid()
    ensures MontesClarosViacep.Validate() == None
  {
    MontesClarosFieldsListed();
    MinasGeraisListed();
  }

  /** A Viacep query for the undashed CEP 39408078 answers with the dashed
      CEP the service returns, remapped to the canonical field names, and
      cancels the shared context. */
  lemma ViacepAnswerKeepsDash(cep: string, world: World, text: string)
    requires cep == "39408078"
    requires world.newRequest(ViacepBase + cep + ViacepSuffix) == None
    requires world.reply == Reply(200, Body(text))
    requires !GoStrings.Contains(text, NotFoundSentinel)
    requires world.json.viacep(text) == Ok(MontesClarosViacep)
    ensures GetCepEffect(ViacepExtractor, ViacepTemplate, cep, false, world)
         == Effect([Response(Cep("39408-078", "MG", "Montes Claros", "Ibituruna", "Avenida Herlindo Silveira"), None)], true)
  {
    ViacepRequestUrl(cep);
    MontesClarosValid();
  }

  /** The Brasilapi record the service gives for CEP 39408078. */
  const MontesClarosBrasilapi := Brasilapi("39408078", "MG", "Montes Claros", "Ibituruna",
                                           "Avenida Herlindo Silveira", "open-cep")

  /** The Brasilapi record for 39408078 passes Brasilapi validation. */
  lemma MontesClarosBrasilapiValid()
    ensures MontesClarosBrasilapi.Validate() == None
  {
    MontesClarosFieldsListed();
    assert Shared.ValidateCepWithoutDash("39408078").0;
    assert Dto.Services[4] == "open-cep";
  }

  /** A Brasilapi query for 39408078 answers with the undashed CEP and the
      service tag dropped, and cancels the shared context. */
  lemma BrasilapiAnswerUndashed(cep: string, world: World, text: string)
    requires cep == "39408078"
    requires world.newRequest(BrasilapiBase + cep) == None
    requires world.reply == Reply(200, Body(text))
    requires !GoStrings.Contains(text, NotFoundSentinel)
    requires world.json.brasilapi(text) == Ok(MontesClarosBrasilapi)
    ensures GetCepEffect(BrasilapiExtractor, BrasilapiTemplate, cep, false, world)
         == Effect([Response(Cep("39408078", "MG", "Montes Claros", "Ibituruna", "Avenida Herlindo Silveira"), None)], true)
  {
    BrasilapiRequestUrl(cep);
    MontesClarosBrasilapiValid();
  }
}
