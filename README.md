# CEP validation, normalisation and query steps, in Dafny

This project models the core of a Go program that looks up a Brazilian
postal code (a CEP) at two web services, Brasilapi and ViaCEP, and turns
whichever answer it gets into one canonical record. The model covers four
parts of that program:

- **Validators.** The `shared` package checks CEP formats and looks up
  state codes, state names and region names in fixed lists. These are
  modelled in `shared.dfy`.
- **Records.** The `dto` package defines the canonical `Cep` record and the
  two upstream schemas, `Brasilapi` and `Viacep`. It gives them
  constructors, ordered `Validate` chains and `ToJson`. These are modelled
  in `dto.dfy`.
- **Normalisers.** The two extractors of the `usecase` package map each
  upstream record onto `Cep`. They are modelled in `usecase.dfy`.
- **Query steps.** One query of one service runs sequentially: it builds the
  URL, checks the shared context, classifies the HTTP status, checks for the
  not-found sentinel, then either sends one response or sends the record and
  cancels the context. This is modelled in `usecase.dfy`.

Three helper modules model the parts of Go's standard library that the core
relies on:

- `wrappers.dfy` holds `Option` and `Result`.
- `gostrings.dfy` models `strings.Index`, `strings.Contains` and
  `strings.Replace` with a count of one, over character sequences (see
  "Left out").
- `jsontext.dfy` models how `encoding/json` writes a string and a record of
  string fields. It also has a reader for exactly that layout, which serves
  as the inverse of `ToJson`.

How Go types are rendered:

- A Go `error` becomes `Option<string>`, holding the message.
- A `(*T, error)` result becomes `Result<T, string>`.
- The `(bool, error)` of the CEP validators becomes `(bool, Option<string>)`.

Validation is modelled as a list of guards in the order the source checks
them. `Dto.FirstFailure` reports the first guard that fails, and a lemma per
record shows that this is the error the source returns.

The query is an object:

- `Usecase.CepQuery` holds the CEP, the service name, the URL template and
  the extractor.
- Its `outbox` field is the sequence of responses sent on its channel.
- `Usecase.Context` is the cancellable context shared by both queries of a
  race. `Cancel` sets its `done` flag.

The world outside the program is an input to the model, a `World` value. It
gives three things:

- what building a request reports for a URL;
- the reply to the request: a transport error, or a status with a body that
  can be read or not;
- what `json.Unmarshal` makes of a body, as one function per schema.

Each imperative step is proved against a pure function:

- `GetCepEffect`, `ExecuteEffect` and `ProcessOkEffect` say what the step
  sends and whether it cancels.
- Each effect keeps the discipline `Disciplined`: at most one response,
  failures carry the empty record, successes carry a record that passes
  `Cep.Validate`, and the context is cancelled exactly after a success.

Behaviour of the code worth noting:

- The not-found sentinel `"erro": "true"` is checked on every 200 body,
  whichever service sent it.
- An unexpected status is reported as the fixed message "unknown error",
  without the status code.
- The query does not validate the input CEP before it builds the request.
  A seven-digit CEP reaches the service, and the service's reply decides the
  outcome.
- A request that cannot be built is reported even when the context is
  already done, because the request is prepared before the context is
  checked.
- The long-name list spells three states "Espirito Santo", "Paraí" and
  "Piaú". A ViaCEP record whose estado is "Espírito Santo", "Paraíba" or
  "Piauí" therefore fails validation with "estado not found"
  (`Dto.ViacepRefusesStandardSpellings`).

## Model

| member | source | states |
|---|---|---|
| Shared.Verdict | internal/shared/shared.go:23-26 | the boolean is the match result, and it is true exactly when there is no error; a failure carries the fixed CEP message |
| Shared.ValidateCep | internal/shared/shared.go:21-27 | accepts exactly when the dashed or the undashed check accepts; the boolean and the error agree; the error is "cep must have 8 digits, optionally with '-'" |
| Shared.OptionalDashIsUnion | internal/shared/shared.go:21-43 | `^\d{5}-?\d{3}$` matches exactly the strings that `^\d{5}-\d{3}$` or `^\d{8}$` matches |
| Shared.WithDashByPosition | internal/shared/shared.go:29-35 | `^\d{5}-\d{3}$` holds exactly for nine characters, a dash sixth and ASCII digits everywhere else |
| Shared.ValidateCepWithDash | internal/shared/shared.go:29-35 | accepts exactly nine characters with a dash at index 5 and ASCII digits at every other index; the boolean and the error agree |
| Shared.ValidateCepWithoutDash | internal/shared/shared.go:37-43 | accepts exactly eight characters, all `0`–`9`; the boolean and the error agree |
| Shared.CepLengthIsEightOrNine | internal/shared/shared.go:21-43 | a text whose length is neither 8 nor 9, such as "3940807", fails all three CEP checks |
| Shared.ValidateStateShort | internal/shared/shared.go:45-47 | true exactly for an entry of the 27-code list; an accepted code is two upper-case letters |
| Shared.ValidateStateLong | internal/shared/shared.go:49-51 | true exactly for an entry of the long-name list as written; an accepted name is non-empty and starts upper-case |
| Shared.ValidateRegiao | internal/shared/shared.go:53-55 | true exactly for one of the five region names; an accepted name is non-empty and starts upper-case |
| Shared.StatesShortDistinct | internal/shared/shared.go:10 | the short list has 27 entries, all distinct |
| Shared.NoEspiritoSantoAccented | internal/shared/shared.go:14 | "Espírito Santo", with its accent, is not in the long-name list |
| Shared.ShortCodesAsWritten | internal/shared/shared.go:10 | "MM" and "M" are rejected and "MG" is accepted |
| Shared.LongNamesAsWritten | internal/shared/shared.go:12-17 | "Piaú", "Paraí" and "Espirito Santo" are accepted, as spelled in the list |
| Shared.NoPiaui | internal/shared/shared.go:15 | "Piauí" is not in the long-name list |
| Shared.NoParaiba | internal/shared/shared.go:15 | "Paraíba" is not in the long-name list |
| Dto.FirstFailure | internal/dto/cep.go:43-54 | an ordered guard chain passes exactly when every guard passes; otherwise it reports the error of a guard that fails first |
| Dto.FirstFailureUnique | internal/dto/cep.go:43-54 | only one guard can be the first to fail |
| Dto.FirstFailureIs | internal/dto/cep.go:43-54 | the chain reports exactly the error of the first failing guard |
| Dto.Cep.Validate | internal/dto/cep.go:43-54 | no error exactly when the CEP is dashed or undashed, the state is listed and city, neighborhood and street are non-empty; an error is that of the first failing check |
| Dto.CepValidateOrder | internal/dto/cep.go:43-54 | a bad CEP gives the CEP error before the state is looked at; a bad state gives "state not found" before the names are; then "city, neighborhood and street must not be empty" |
| Dto.CepAcceptsBothForms | internal/dto/cep.go:44-46 | with a listed state and non-empty names, "39408-078" and "39408078" are accepted and "3940807" is refused with the CEP error |
| Dto.NewCep | internal/dto/cep.go:18-30 | returns a record equal field for field to the arguments exactly when it validates, and otherwise its validation error |
| Dto.Cep.ToJson | internal/dto/cep.go:32-41 | fails exactly when validation fails, with that error; otherwise writes the object with keys cep, state, city, neighborhood, street in that order, and that text reads back as the same record |
| Dto.EmptyCepRefused | internal/dto/cep.go:32-35 | the zero record fails validation with the CEP error, and `ToJson` refuses it with that error |
| JsonText.EscapeChar | internal/dto/cep.go:36 | the encoding of one character: plain ASCII and non-ASCII other than U+2028/U+2029 copied; `\"`, `\\`, `\n`, `\r`, `\t` for quote, backslash, newline, carriage return and tab; `\u003c`, `\u003e`, `\u0026` for `<`, `>`, `&`; a six-character `\u00XX` for any other control character; `\u2028`, `\u2029` for the separators; never a raw control character |
| JsonText.ReadEscapedChar | internal/dto/cep.go:36 | every encoded character, followed by any text, reads back as that character followed by what the text reads as |
| JsonText.Escape | internal/dto/cep.go:36 | the encoded contents are never shorter than the text, empty only for the empty text, and hold no raw control character |
| JsonText.Quote | internal/dto/cep.go:36 | a string literal opens with a quote and reads back as exactly the text it encodes, with nothing after the closing quote |
| JsonText.Member | internal/dto/cep.go:36 | a `"key":"value"` member opens with a quote and is at least five characters longer than key and value together; `ReadMemberRoundTrip` reads it back |
| JsonText.Members | internal/dto/cep.go:36 | the member list is empty exactly when there are no keys, and otherwise opens with a quote; `ReadMembersRoundTrip` reads it back |
| JsonText.Object | internal/dto/cep.go:36 | the object is braced, and is `{}` exactly when there are no keys; `ObjectRoundTrip` reads it back |
| JsonText.EscapePlain | internal/dto/cep.go:36-40 | a string of plain printable ASCII is written unchanged inside the quotes |
| JsonText.ReadQuotedRoundTrip | internal/dto/cep.go:36-40 | reading an escaped string up to its closing quote gives back the original string and the text after the quote |
| JsonText.ReadMemberRoundTrip | internal/dto/cep.go:36-40 | reading `"key":"value"` written by the encoder gives back the value and the rest |
| JsonText.ReadMembersRoundTrip | internal/dto/cep.go:36-40 | reading the comma-separated members gives back every value, in key order |
| JsonText.ObjectRoundTrip | internal/dto/cep.go:36-40 | reading back an encoded object with the same keys gives back the values |
| Dto.Brasilapi.Validate | internal/dto/brasilapi.go:66-80 | no error exactly when the CEP is eight digits with no dash, the state is listed, the service is one of the five providers and city, neighborhood and street are non-empty; an error is that of the first failing check |
| Dto.BrasilapiValidateOrder | internal/dto/brasilapi.go:66-80 | the checks run in the order CEP, state, service, names, and each failure reports its own message |
| Dto.BrasilapiRejectsDash | internal/dto/brasilapi.go:67-69 | a well-formed dashed CEP is refused with the CEP error |
| Dto.BrasilapiRejectsOpen | internal/dto/brasilapi.go:73-75 | with a valid CEP and state, the service "open" is refused with "service not found" |
| Dto.NewBrasilapi | internal/dto/brasilapi.go:29-45 | returns a record equal field for field to the six arguments exactly when it validates, and otherwise its validation error |
| Dto.NewBrasilapiFromJson | internal/dto/brasilapi.go:49-60 | a decoding error is returned unchanged; otherwise the decoded record is returned exactly when it validates, and its validation error otherwise |
| Dto.Viacep.Validate | internal/dto/viacep.go:62-80 | no error exactly when the CEP is `NNNNN-NNN`, uf is a listed code, estado a listed name and regiao a listed region, and localidade, bairro and logradouro are non-empty; an error is that of the first failing check |
| Dto.ViacepValidateOrder | internal/dto/viacep.go:62-80 | the checks run in the order CEP, uf, estado, regiao, place names, each with its own message |
| Dto.ViacepFreeFields | internal/dto/viacep.go:62-80 | complemento, unidade, ibge, gia, ddd and siafi never change the outcome of validation |
| Dto.ViacepStatesNotCrossChecked | internal/dto/viacep.go:66-71 | a valid record stays valid with any listed code paired with any listed name, so uf and estado need not name the same state |
| Dto.ViacepRefusesStandardSpellings | internal/dto/viacep.go:69-71 | a record that passes the CEP and uf checks is refused with "estado not found" when its estado is "Paraíba", "Piauí" or "Espírito Santo", the spellings the long-name list of internal/shared/shared.go:14-15 lacks |
| Dto.ViacepRejectsUndashed | internal/dto/viacep.go:63-65 | a well-formed undashed CEP is refused with the CEP error |
| Dto.NewViacep | internal/dto/viacep.go:26-47 | returns a record equal to the thirteen arguments exactly when it validates, and otherwise its validation error |
| Dto.NewViacepFromJson | internal/dto/viacep.go:49-60 | a decoding error is returned unchanged; otherwise the decoded record is returned exactly when it validates, and its validation error otherwise |
| GoStrings.Index | internal/usecase/get_cep.go:93 | the result is the first position where the substring occurs, or none when it occurs nowhere |
| GoStrings.Contains | internal/usecase/get_cep.go:93 | true exactly when the substring occurs at some position |
| GoStrings.ReplaceFirst | internal/usecase/get_cep.go:113 | with no occurrence the text is unchanged; otherwise only the first occurrence is replaced and the rest is kept |
| GoStrings.FirstAtUnique | internal/usecase/get_cep.go:113 | there is only one first occurrence |
| GoStrings.ReplaceAfterPrefix | internal/usecase/get_cep.go:113 | when the text before the pattern cannot start it, exactly that occurrence is replaced |
| Usecase.UrlFor | internal/usecase/get_cep.go:113 | substituting into `prefix + "{{cep}}" + suffix`, with no `{` in the prefix, gives `prefix + cep + suffix` for any CEP |
| Usecase.BrasilapiRequestUrl | internal/usecase/query_brasilapi.go:42 | the Brasilapi URL is "https://brasilapi.com.br/api/cep/v1/" followed by the CEP |
| Usecase.ViacepRequestUrl | internal/usecase/query_viacep.go:39 | the ViaCEP URL is "http://viacep.com.br/ws/", the CEP, then "/json/" |
| Usecase.BrasilapiToCep | internal/usecase/query_brasilapi.go:22-28 | a valid Brasilapi record maps to a record that passes `Cep.Validate` |
| Usecase.BrasilapiServiceDropped | internal/usecase/query_brasilapi.go:22-28 | the service tag never reaches the canonical record |
| Usecase.ViacepToCep | internal/usecase/query_viacep.go:19-25 | a valid Viacep record maps to a record that passes `Cep.Validate` |
| Usecase.ViacepExtrasDropped | internal/usecase/query_viacep.go:19-25 | estado, regiao, complemento, unidade, ibge, gia, ddd and siafi never reach the canonical record |
| Usecase.BrasilapiExtract | internal/usecase/query_brasilapi.go:16-30 | succeeds exactly when the body decodes to a valid Brasilapi record, with the remapped record, which is valid; otherwise the decoding or validation error |
| Usecase.ViacepExtract | internal/usecase/query_viacep.go:13-27 | succeeds exactly when the body decodes to a valid Viacep record, with the remapped record, which is valid; otherwise the decoding or validation error |
| Usecase.Extract | internal/usecase/get_cep.go:98 | whichever extractor a query holds, a record it returns passes `Cep.Validate` |
| Usecase.StatusError | internal/usecase/get_cep.go:60-75 | only 200 has no error; 408, 404, 400, 500 and 503 map to their fixed messages; every other status maps to "unknown error" |
| Usecase.ProcessOkEffect | internal/usecase/get_cep.go:86-105 | handling a 200 keeps the discipline: at most one response, a failure carries the empty record, a success carries a valid record, and the context is cancelled exactly after a success |
| Usecase.ExecuteEffect | internal/usecase/get_cep.go:53-76 | executing the request keeps the same discipline |
| Usecase.GetCepEffect | internal/usecase/get_cep.go:31-47 | a whole query keeps the same discipline and never cancels a context that was already done |
| Usecase.Context.Cancel | internal/usecase/get_cep.go:104 | the shared context is done afterwards |
| Usecase.CepQuery.constructor | internal/usecase/get_cep.go:16-24 | a query holds exactly the given context, CEP, service name, template and extractor, and has sent nothing |
| Usecase.CepQuery.Send | internal/usecase/get_cep.go:103 | sending appends exactly that response to the channel |
| Usecase.CepQuery.GetCep | internal/usecase/get_cep.go:31-47 | the channel gains exactly what `GetCepEffect` sends for the context's state on entry, and the context is done afterwards exactly if it was done or the query succeeded |
| Usecase.PrepareUrl | internal/usecase/get_cep.go:112-120 | the URL is the template with its first `{{cep}}` replaced by the CEP; if no request can be built, exactly one response with the empty record and that error is sent and the caller is told to stop; otherwise nothing is sent |
| Usecase.ExecuteQuery | internal/usecase/get_cep.go:53-76 | the channel gains exactly what `ExecuteEffect` sends, and the context is cancelled exactly when it says so |
| Usecase.ProcessHttpResponseOk | internal/usecase/get_cep.go:86-105 | the channel gains exactly what `ProcessOkEffect` sends, and the context is cancelled exactly when it says so |
| Usecase.ExtractCepFromBody | internal/usecase/get_cep.go:98-101 | calls the extractor the query holds: on failure it sends exactly one error response and says stop; on success it sends nothing and returns the record |
| Usecase.BrasilapiExtractCepFromBody | internal/usecase/query_brasilapi.go:16-30 | on a decoding or validation failure, sends exactly one response with the empty record and that error, and returns the empty record and true; otherwise sends nothing and returns the remapped record and false |
| Usecase.ViacepExtractCepFromBody | internal/usecase/query_viacep.go:13-27 | on a decoding or validation failure, sends exactly one response with the empty record and that error, and returns the empty record and true; otherwise sends nothing and returns the remapped record and false |
| Usecase.NewQueryBrasilapi | internal/usecase/query_brasilapi.go:36-47 | a fresh query with the Brasilapi template, the name "Brasilapi", the Brasilapi extractor and nothing sent |
| Usecase.NewCepQueryViacep | internal/usecase/query_viacep.go:33-44 | a fresh query with the ViaCEP template, the name "Viacep", the ViaCEP extractor and nothing sent |
| Usecase.OtherStatusIgnoresBody | internal/usecase/get_cep.go:63-74 | a status other than 200 gives one failure with that status's message, whatever the body |
| Usecase.NotFoundTwoWays | internal/usecase/get_cep.go:93-96 | a 200 body containing `"erro": "true"` gives the same single "not found" failure as a 404, without consulting the extractor |
| Usecase.CancelledQuerySilent | internal/usecase/get_cep.go:39-42 | once the context is done, a query whose request can be built sends nothing and cancels nothing |
| Usecase.RequestFailureReportedWhenCancelled | internal/usecase/get_cep.go:34-37 | a request that cannot be built is reported even when the context is already done |
| Usecase.CancelsExactlyOnSuccess | internal/usecase/get_cep.go:98-104 | a query cancels exactly when the context was not done, the request was built, the reply was a readable 200 without the sentinel, and the body extracted; it then sends just the extracted record |
| Usecase.MontesClarosFieldsListed | internal/usecase/get_cep_test.go:32-38 | the dashed CEP 39408-078 passes the dashed check and "MG" is a listed code |
| Usecase.MinasGeraisListed | internal/usecase/get_cep_test.go:32-38 | "Minas Gerais" is a listed state name and "Sudeste" a listed region |
| Usecase.MontesClarosValid | internal/usecase/get_cep_test.go:32-38 | the ViaCEP record for 39408-078 passes Viacep validation |
| Usecase.ViacepAnswerKeepsDash | internal/usecase/get_cep_test.go:32-38 | a ViaCEP query for "39408078" answering that record sends the canonical record with the dashed CEP "39408-078" and cancels |
| Usecase.MontesClarosBrasilapiValid | internal/usecase/get_cep_test.go:75-81 | the Brasilapi record for 39408078 with service "open-cep" passes Brasilapi validation |
| Usecase.BrasilapiAnswerUndashed | internal/usecase/get_cep_test.go:75-81 | a Brasilapi query for "39408078" answering that record sends the canonical record with the undashed CEP and cancels |

## Left out

- **The race itself.** The program runs two queries concurrently and takes
  the first response from either channel, with a deadline
  (internal/usecase/execute_queries.go, cmd/main.go). This is not part of
  this model. The queries here run one at a time over a shared context
  object, so the model can express "the winner cancels, a later query stays
  silent" but not any interleaving.
- **Goroutine of `executeQuery`.** `executeQuery` starts
  `processHttpResponseOk` as a goroutine. The model runs it to completion in
  place, since it is the last thing the query does.
- **Channel blocking.** A send on the unbuffered channel blocks until the
  race reads it. The model appends to the outbox instead, so a send that
  would never be received is not modelled.
- **Random delay.** The random delay of up to 1500 ms at the start of
  `GetCep` is left out, together with deadlines and timers. Time only
  affects the order of events, which is the race above.
- **HTTP and the network.** Building the request, the round trip and reading
  the body are inputs to the model (`World.newRequest` and `World.reply`),
  not computed.
- **Byte strings.** Go strings are byte sequences, and here they are
  sequences of Unicode characters. `GoStrings.Index` therefore gives a
  character position where Go gives a byte offset, for example 1 rather
  than 2 for `{{cep}}` after `ú`. `Contains` and `ReplaceFirst` agree with
  Go on valid UTF-8. A body or CEP holding invalid UTF-8 cannot be
  expressed. Nor can the `\ufffd` that `json.Marshal` writes for such bytes.
- **JSON decoding.** `json.Unmarshal` is a parameter: one function per schema
  from the body text to a record or an error. Its own parsing rules, such as
  a number where a string is expected, are not modelled.
- **Reading `ToJson` output.** The reader of the `ToJson` text accepts only
  the exact layout that `ToJson` writes. It is the inverse used to state the
  round trip, not a general JSON decoder.
- **Escaping `\b` and `\f`.** JSON escaping writes the backspace and form
  feed characters as `\u0008` and `\u000c`. Releases of Go from 1.22 on
  write them as `\b` and `\f`. The rest of the escaping follows
  `encoding/json` with HTML escaping on: `\"`, `\\`, `\n`, `\r`, `\t`;
  `\u00XX` for other control characters and for `<`, `>` and `&`; and
  `\u2028`, `\u2029` for the two Unicode line and paragraph separators.
- **`json.Marshal` errors.** Go strings cannot make `json.Marshal` fail on
  a record of string fields, so its error branch in `ToJson` has no model.
- **Logging.** Logging on the cancelled path and in internal/report is not
  modelled.
- **Other code.** The root main.go and the command-line handling in
  cmd/main.go (flags, signals, logger setup) are not part of this model.
- **`NewResponse`.** `NewResponse` in internal/dto/response.go is the constructor of the
  `Dto.Response` datatype. It has no behaviour of its own.
