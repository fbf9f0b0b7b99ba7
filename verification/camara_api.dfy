/** The service layer of src/services/camara-api.ts: the parameters it sends, how it turns
    the client's answers into local records, and the attendance tally. Each service receives
    what `httpClient.get` produced for it (the parsed body or the error it threw). */
module CamaraApi {
  import opened Js
  import opened Entities
  import opened ApiClient
  import opened ApiResponses

  // ---------------------------------------------------------------------
  // Errors

  /** `error instanceof Error ? error.message : 'Erro desconhecido'`. The object thrown for a
      non-ok status is a plain object, not an `Error`. */
  function ErrorText(e: ApiError): (r: string)
    ensures e.ErrorObject? ==> r == e.message
    ensures e.StatusError? ==> r == "Erro desconhecido"
  {
    match e
    case StatusError(_, _, _) => "Erro desconhecido"
    case ErrorObject(_, message) => message
  }

  /** The `Error` a service rethrows: its own prefix, then the text of the cause. */
  function Failure(prefix: string, e: ApiError): string {
    prefix + ": " + ErrorText(e)
  }

  /** An HTTP status failure loses its status line on the way out of a service. */
  lemma StatusFailureIsUnknown(prefix: string, status: int, statusText: string, endpoint: string)
    ensures Failure(prefix, Classify(Response(status, statusText, JNull), endpoint).error)
            == prefix + ": Erro desconhecido"
    ensures Failure(prefix, Classify(Thrown("AbortError", ""), endpoint).error) == prefix + ": " + TimeoutMessage
    requires !IsOk(status)
  {
  }

  // ---------------------------------------------------------------------
  // searchDeputies: the parameter merge

  /** `DeputadosSearchParams`; a field the caller left out is `Undefined`. */
  datatype SearchParams = SearchParams(
    nome: Nullable<string>,
    siglaUf: Nullable<string>,
    siglaPartido: Nullable<string>,
    itens: Nullable<int>,
    pagina: Nullable<int>,
    ordem: Nullable<string>,
    ordenarPor: Nullable<string>)

  const NoSearchParams := SearchParams(Undefined, Undefined, Undefined, Undefined, Undefined, Undefined, Undefined)

  function StrField(s: Nullable<string>): Nullable<Scalar> {
    match s
    case Undefined => Undefined
    case Null => Null
    case Value(v) => Value(Str(v))
  }

  function NumField(n: Nullable<int>): Nullable<Scalar> {
    match n
    case Undefined => Undefined
    case Null => Null
    case Value(v) => Value(Num(v))
  }

  /** `s?.f()`: `undefined` for a missing or null string. */
  function MapDefined(s: Nullable<string>, f: string -> string): Nullable<Scalar> {
    if s.Value? then Value(Str(f(s.v))) else Undefined
  }

  /** The spread of the caller's entries that are not `undefined` over the computed value. */
  function Override(computed: Nullable<Scalar>, raw: Nullable<Scalar>): Nullable<Scalar> {
    if raw.Undefined? then computed else raw
  }

  /** The object `searchDeputies` hands to `get`, in key order: the computed defaults, each
      overwritten by the caller's own value when that is not `undefined`. */
  function SearchQuery(p: SearchParams): (r: seq<(string, Nullable<Scalar>)>)
    ensures |r| == 7
    ensures r[0].0 == "nome" && r[1].0 == "siglaUf" && r[2].0 == "siglaPartido" && r[3].0 == "itens"
    ensures r[4].0 == "pagina" && r[5].0 == "ordem" && r[6].0 == "ordenarPor"
  {
    [ ("nome", Override(MapDefined(p.nome, Trim), StrField(p.nome))),
      ("siglaUf", Override(MapDefined(p.siglaUf, Upper), StrField(p.siglaUf))),
      ("siglaPartido", Override(MapDefined(p.siglaPartido, Upper), StrField(p.siglaPartido))),
      ("itens", Override(Value(Num(if TruthyNumber(p.itens) then p.itens.v else 20)), NumField(p.itens))),
      ("pagina", Override(Value(Num(if TruthyNumber(p.pagina) then p.pagina.v else 1)), NumField(p.pagina))),
      ("ordem", Override(Value(Str(OrString(p.ordem, "ASC"))), StrField(p.ordem))),
      ("ordenarPor", Override(Value(Str(OrString(p.ordenarPor, "nome"))), StrField(p.ordenarPor))) ]
  }

  /** Every field the caller set wins over the computed one: the name is sent untrimmed and the
      state and party codes as given; a missing field takes its default. */
  lemma SearchQueryMerge(p: SearchParams)
    ensures var r := SearchQuery(p);
            && r[0].1 == StrField(p.nome)
            && r[1].1 == StrField(p.siglaUf)
            && r[2].1 == StrField(p.siglaPartido)
            && r[3].1 == (if p.itens.Undefined? then Value(Num(20)) else NumField(p.itens))
            && r[4].1 == (if p.pagina.Undefined? then Value(Num(1)) else NumField(p.pagina))
            && r[5].1 == (if p.ordem.Undefined? then Value(Str("ASC")) else StrField(p.ordem))
            && r[6].1 == (if p.ordenarPor.Undefined? then Value(Str("nome")) else StrField(p.ordenarPor))
  {
  }

  /** With no parameters the request asks for the first 20 deputies, ascending by name. */
  lemma DefaultSearchPairs()
    ensures KeptParams(SearchQuery(NoSearchParams))
         == [("itens", "20"), ("pagina", "1"), ("ordem", "ASC"), ("ordenarPor", "nome")]
  {
    var q := SearchQuery(NoSearchParams);
    assert q[1..][1..] == q[2..] && q[2..][1..] == q[3..];
    assert KeptParams(q) == KeptParams(q[1..]);
    assert KeptParams(q[1..]) == KeptParams(q[2..]);
    assert KeptParams(q[2..]) == KeptParams(q[3..]);
    KeptParamsAllPresent(q[3..]);
    assert NatToString(20) == "20" && NatToString(1) == "1";
  }

  /** A `null` page size overrides the default and is then dropped by `get`: no `itens` is sent at all. */
  lemma NullItensNotSent(p: SearchParams)
    requires p.itens == Null
    ensures forall i :: 0 <= i < |KeptParams(SearchQuery(p))| ==> KeptParams(SearchQuery(p))[i].0 != "itens"
  {
    var q := SearchQuery(p);
    assert q[3].1 == Null;
    KeptParamsOmit(q, "itens");
  }

  /** `searchWithFilters`: the page's query, party and state become name, party and state. */
  function SearchWithFiltersParams(query: Nullable<string>, partido: Nullable<string>, uf: Nullable<string>,
                                   itens: Nullable<int>): (r: SearchParams)
    ensures r.nome == query && r.siglaPartido == partido && r.siglaUf == uf && r.itens == itens
    ensures r.pagina.Undefined? && r.ordem.Undefined? && r.ordenarPor.Undefined?
  {
    NoSearchParams.(nome := query, siglaPartido := partido, siglaUf := uf, itens := itens)
  }

  /** `searchDeputies`: every deputy of the answer, normalised, in order. */
  function SearchDeputies(response: Result<seq<CamaraDeputado>, ApiError>, localeDate: string -> string)
    : (r: Result<seq<Deputy>, string>)
    ensures response.Ok? <==> r.Ok?
    ensures r.Ok? ==> |r.value| == |response.value|
                      && forall i :: 0 <= i < |r.value| ==> r.value[i] == MapCamaraDeputyToLocal(response.value[i], localeDate)
    ensures r.Err? ==> r.error == Failure("Falha ao buscar deputados", response.error)
  {
    match response
    case Ok(dados) => Ok(seq(|dados|, i requires 0 <= i < |dados| => MapCamaraDeputyToLocal(dados[i], localeDate)))
    case Err(e) => Err(Failure("Falha ao buscar deputados", e))
  }

  // ---------------------------------------------------------------------
  // getDeputyById

  /** `getDeputyById`: `null` unless the answer has a record with a truthy id. */
  function GetDeputyById(response: Result<Nullable<CamaraDeputado>, ApiError>, localeDate: string -> string)
    : (r: Result<Option<Deputy>, string>)
    ensures r.Ok? <==> response.Ok?
    ensures r.Ok? ==> (r.value.None? <==> !response.value.Value? || !TruthyNumber(response.value.v.id))
    ensures r.Ok? && r.value.Some? ==> r.value.value == MapCamaraDeputyToLocal(response.value.v, localeDate)
    ensures r.Err? ==> r.error == Failure("Falha ao buscar detalhes do deputado", response.error)
  {
    match response
    case Err(e) => Err(Failure("Falha ao buscar detalhes do deputado", e))
    case Ok(dados) =>
      if !dados.Value? || !TruthyNumber(dados.v.id) then Ok(None)
      else Ok(Some(MapCamaraDeputyToLocal(dados.v, localeDate)))
  }

  /** A deputy `getDeputyById` returns carries the printed upstream id, never `unknown`. */
  lemma FoundDeputyHasId(response: Result<Nullable<CamaraDeputado>, ApiError>, localeDate: string -> string)
    requires GetDeputyById(response, localeDate).Ok? && GetDeputyById(response, localeDate).value.Some?
    ensures GetDeputyById(response, localeDate).value.value.id == IntToString(response.value.v.id.v)
    ensures GetDeputyById(response, localeDate).value.value.id != "unknown"
  {
    var n := response.value.v.id.v;
    var text := IntToString(n);
    if n >= 0 {
      assert IsDigit(text[0]);
    } else {
      assert text[0] == '-';
    }
    assert "unknown"[0] == 'u';
  }

  // ---------------------------------------------------------------------
  // getDeputyProposals

  /** A proposal as `getDeputyProposals` reads it. */
  datatype ProposalItem = ProposalItem(
    id: int,
    siglaTipo: Nullable<string>,
    numero: int,
    ano: int,
    ementa: Nullable<string>,
    dataApresentacao: Nullable<string>)

  const MaxProposals: nat := 20

  /** The request: author id, page size 20, page 1 and newest first unless given. */
  function ProposalsQuery(id: string, itens: Nullable<int>, pagina: Nullable<int>, ordem: Nullable<string>)
    : (r: seq<(string, Nullable<Scalar>)>)
    ensures |r| == 4 && r[0].0 == "idDeputadoAutor" && r[1].0 == "itens" && r[2].0 == "pagina" && r[3].0 == "ordem"
    ensures ParseInt(id).Int? ==> r[0].1 == Value(Num(ParseInt(id).value))
    ensures ParseInt(id).NaN? ==> r[0].1 == Value(Str("NaN"))
    ensures r[1].1 == Value(Num(if TruthyNumber(itens) then itens.v else 20))
    ensures r[2].1 == Value(Num(if TruthyNumber(pagina) then pagina.v else 1))
    ensures r[3].1 == Value(Str(if TruthyString(ordem) then ordem.v else "DESC"))
  {
    [ ("idDeputadoAutor", match ParseInt(id) case Int(n) => Value(Num(n)) case NaN => Value(Str("NaN"))),
      ("itens", Value(Num(if TruthyNumber(itens) then itens.v else 20))),
      ("pagina", Value(Num(if TruthyNumber(pagina) then pagina.v else 1))),
      ("ordem", Value(Str(OrString(ordem, "DESC")))) ]
  }

  /** A deputy id in its printed form is sent as that number. */
  lemma ProposalsAuthorId(n: nat, itens: Nullable<int>, pagina: Nullable<int>, ordem: Nullable<string>)
    ensures ProposalsQuery(NatToString(n), itens, pagina, ordem)[0] == ("idDeputadoAutor", Value(Num(n)))
  {
    ParseNatToString(n);
  }

  /** `getDeputyProposals`' own mapping of one item: the status is always `Em Tramitação`
      and the date is passed through unformatted. */
  function ProposalOf(item: ProposalItem): (r: Proposicao)
    ensures r.status == EmTramitacao
    ensures r.id == IntToString(item.id) && r.numero == item.numero && r.ano == item.ano
    ensures r.dataApresentacao == OrString(item.dataApresentacao, "")
    ensures TruthyString(item.siglaTipo) ==> r.tipo == item.siglaTipo.v
    ensures !TruthyString(item.siglaTipo) ==> r.tipo == ""
    ensures TruthyString(item.ementa) ==> r.ementa == item.ementa.v
    ensures !TruthyString(item.ementa) ==> r.ementa == ""
  {
    Proposicao(IntToString(item.id), OrString(item.siglaTipo, ""), item.numero, item.ano,
               OrString(item.ementa, ""), EmTramitacao, OrString(item.dataApresentacao, ""))
  }

  /** `getDeputyProposals`: the first 20 items, in the order received. */
  function GetDeputyProposals(response: Result<Nullable<seq<ProposalItem>>, ApiError>): (r: Result<seq<Proposicao>, string>)
    ensures r.Ok? <==> response.Ok?
    ensures r.Ok? ==>
      var dados := OrElse(response.value, []);
      && |r.value| == (if |dados| < MaxProposals then |dados| else MaxProposals)
      && forall i :: 0 <= i < |r.value| ==> r.value[i] == ProposalOf(dados[i])
    ensures r.Err? ==> r.error == Failure("Falha ao buscar proposições", response.error)
  {
    match response
    case Err(e) => Err(Failure("Falha ao buscar proposições", e))
    case Ok(d) =>
      var dados := OrElse(d, []);
      var top := if |dados| < MaxProposals then dados else dados[..MaxProposals];
      Ok(seq(|top|, i requires 0 <= i < |top| => ProposalOf(top[i])))
  }

  /** Every proposal the service returns is `Em Tramitação`, whatever the upstream status. */
  lemma ProposalsAllInProgress(response: Result<Nullable<seq<ProposalItem>>, ApiError>)
    requires response.Ok?
    ensures forall i :: 0 <= i < |GetDeputyProposals(response).value| ==> GetDeputyProposals(response).value[i].status == EmTramitacao
  {
  }

  /** The service's date is the raw upstream text: for a dated item, it differs from what the
      shared mapper would produce whenever formatting changes the text. */
  lemma ProposalDateUnformatted(item: ProposalItem, y: string, m: string, d: string, localeDate: string -> string)
    requires '-' !in y && '-' !in m && '-' !in d
    requires item.dataApresentacao == Value(y + "-" + m + "-" + d)
    ensures ProposalOf(item).dataApresentacao == y + "-" + m + "-" + d
    ensures MapCamaraProposicaoToLocal(CamaraProposicao(item.id, item.siglaTipo, item.numero, item.ano, item.ementa,
                                                        Undefined, item.dataApresentacao), localeDate).dataApresentacao
            == d + "/" + m + "/" + y
  {
    FormatIsoDate(y, m, d, localeDate);
  }

  // ---------------------------------------------------------------------
  // getDeputyExpenses

  /** `BASE_PATHS.DEPUTADO_DETAIL` followed by the id: the endpoint `getDeputyById` reads a single
      deputy from, and the one `getDeputyExpenses` requests. */
  function DeputyDetailEndpoint(id: string): (r: string)
    ensures "/api/deputados/" <= r && r[|"/api/deputados/"|..] == id
  {
    "/api/deputados" + "/" + id
  }

  /** What `response.dados` holds: nothing (missing or null), a list of expense records, or a
      single record, which is what the detail endpoint answers with. */
  datatype ExpensesDados = NoDados | DespesaList(items: seq<CamaraDespesa>) | SingleRecord

  /** The `TypeError` message V8 gives for `.map` called on an object in the unminified code; a
      bundler or another engine words it differently, only the prefix and the `TypeError` are fixed. */
  const MapNotAFunction := "(response.dados || []).map is not a function"

  /** `getDeputyExpenses` as written: `(response.dados || []).map(...)` inside the `try`. A single
      record has no `map`, and the `TypeError` is rethrown with the service's prefix. */
  function GetDeputyExpensesAsWritten(response: Result<ExpensesDados, ApiError>): (r: Result<seq<Despesa>, string>)
    ensures response.Ok? && response.value.SingleRecord? ==>
              r == Err(Failure("Falha ao buscar despesas", ErrorObject("TypeError", MapNotAFunction)))
    ensures response.Ok? && response.value.DespesaList? ==> r == GetDeputyExpenses(Ok(Value(response.value.items)))
    ensures response.Ok? && response.value.NoDados? ==> r == Ok([])
    ensures response.Err? ==> r == GetDeputyExpenses(Err(response.error))
  {
    match response
    case Err(e) => Err(Failure("Falha ao buscar despesas", e))
    case Ok(NoDados) => Ok([])
    case Ok(DespesaList(items)) => Ok(seq(|items|, i requires 0 <= i < |items| => MapCamaraDespesaToLocal(items[i])))
    case Ok(SingleRecord) => Err(Failure("Falha ao buscar despesas", ErrorObject("TypeError", MapNotAFunction)))
  }

  /** The detail endpoint answers with one deputy record, as `getDeputyById` reads it; on that
      answer the service as written fails every time, although the request succeeded. */
  lemma ExpensesFailOnDetailAnswer(id: string)
    ensures DeputyDetailEndpoint(id) == "/api/deputados/" + id
    ensures GetDeputyExpensesAsWritten(Ok(SingleRecord)) == Err("Falha ao buscar despesas" + ": " + MapNotAFunction)
    ensures GetDeputyExpenses(Ok(Value([]))) == Ok([])
  {
  }

  /** `getDeputyExpenses` on the list of expense records it evidently expects: every expense,
      normalised by the same rules as `mapCamaraDespesaToLocal`. */
  function GetDeputyExpenses(response: Result<Nullable<seq<CamaraDespesa>>, ApiError>): (r: Result<seq<Despesa>, string>)
    ensures r.Ok? <==> response.Ok?
    ensures r.Ok? && !response.value.Value? ==> r.value == []
    ensures r.Ok? ==> var dados := OrElse(response.value, []);
      && |r.value| == |dados|
      && forall i :: 0 <= i < |dados| ==> r.value[i] == MapCamaraDespesaToLocal(dados[i])
    ensures r.Ok? ==> var dados := OrElse(response.value, []);
      forall i :: 0 <= i < |dados| ==>
           && r.value[i].mes == dados[i].mes && r.value[i].ano == dados[i].ano
           && (TruthyString(dados[i].tipoDespesa) ==> r.value[i].categoria == dados[i].tipoDespesa.v)
           && (!TruthyString(dados[i].tipoDespesa) ==> r.value[i].categoria == "")
           && (!TruthyNumber(dados[i].valorDocumento) ==> r.value[i].valor == 0)
           && (TruthyNumber(dados[i].valorDocumento) ==> r.value[i].valor == dados[i].valorDocumento.v)
           && (dados[i].fornec.Value? && TruthyString(dados[i].fornec.v.nomeFornecedor) ==>
                 r.value[i].fornecedor == dados[i].fornec.v.nomeFornecedor.v)
           && (!(dados[i].fornec.Value? && TruthyString(dados[i].fornec.v.nomeFornecedor)) ==>
                 r.value[i].fornecedor == "")
    ensures r.Err? ==> r.error == Failure("Falha ao buscar despesas", response.error)
  {
    match response
    case Err(e) => Err(Failure("Falha ao buscar despesas", e))
    case Ok(d) =>
      var dados := OrElse(d, []);
      Ok(seq(|dados|, i requires 0 <= i < |dados| => MapCamaraDespesaToLocal(dados[i])))
  }

  /** The expense request: the year if given, 20 per page, page 1, newest year first. */
  function ExpensesQuery(ano: Nullable<int>, itens: Nullable<int>, pagina: Nullable<int>,
                         ordem: Nullable<string>, ordenarPor: Nullable<string>): (r: seq<(string, Nullable<Scalar>)>)
    ensures |r| == 5 && r[0] == ("ano", NumField(ano))
    ensures r[1] == ("itens", Value(Num(if TruthyNumber(itens) then itens.v else 20)))
    ensures r[2] == ("pagina", Value(Num(if TruthyNumber(pagina) then pagina.v else 1)))
    ensures r[3] == ("ordem", Value(Str(if TruthyString(ordem) then ordem.v else "DESC")))
    ensures r[4] == ("ordenarPor", Value(Str(OrString(ordenarPor, "ano"))))
  {
    [ ("ano", NumField(ano)),
      ("itens", Value(Num(if TruthyNumber(itens) then itens.v else 20))),
      ("pagina", Value(Num(if TruthyNumber(pagina) then pagina.v else 1))),
      ("ordem", Value(Str(OrString(ordem, "DESC")))),
      ("ordenarPor", Value(Str(OrString(ordenarPor, "ano")))) ]
  }

  /** Without a year the request sends no `ano` at all. */
  lemma ExpensesWithoutYear(itens: Nullable<int>, pagina: Nullable<int>, ordem: Nullable<string>, ordenarPor: Nullable<string>)
    ensures |KeptParams(ExpensesQuery(Undefined, itens, pagina, ordem, ordenarPor))| == 4
    ensures KeptParams(ExpensesQuery(Undefined, itens, pagina, ordem, ordenarPor))[0].0 == "itens"
  {
    var q := ExpensesQuery(Undefined, itens, pagina, ordem, ordenarPor);
    assert KeptParams(q) == KeptParams(q[1..]);
    KeptParamsAllPresent(q[1..]);
  }

  // ---------------------------------------------------------------------
  // Organs and career history

  function GetDeputyOrgaos(response: Result<Nullable<seq<CamaraOrgao>>, ApiError>, localeDate: string -> string)
    : (r: Result<seq<Comissao>, string>)
    ensures r.Ok? <==> response.Ok?
    ensures r.Ok? ==> |r.value| == |OrElse(response.value, [])|
    ensures r.Ok? ==> forall i :: 0 <= i < |r.value| ==> r.value[i].titulo != "null"
    ensures r.Ok? ==> forall i :: 0 <= i < |r.value| ==> r.value[i] == MapCamaraOrgaoToLocal(OrElse(response.value, [])[i], localeDate)
    ensures r.Err? ==> r.error == Failure("Falha ao buscar órgãos", response.error)
  {
    match response
    case Err(e) => Err(Failure("Falha ao buscar órgãos", e))
    case Ok(d) =>
      var dados := OrElse(d, []);
      Ok(seq(|dados|, i requires 0 <= i < |dados| => MapCamaraOrgaoToLocal(dados[i], localeDate)))
  }

  function GetDeputyHistorico(response: Result<Nullable<seq<CamaraHistorico>>, ApiError>)
    : (r: Result<seq<CareerEvent>, string>)
    ensures r.Ok? <==> response.Ok?
    ensures r.Ok? ==> |r.value| == |OrElse(response.value, [])|
    ensures r.Ok? ==> forall i :: 0 <= i < |r.value| ==>
              NumberTemplate(OrElse(response.value, [])[i].idLegislatura) + "ª Legislature" <= r.value[i].cargo
    ensures r.Ok? ==> forall i :: 0 <= i < |r.value| ==> r.value[i] == MapCamaraHistoricoToLocal(OrElse(response.value, [])[i])
    ensures r.Err? ==> r.error == Failure("Falha ao buscar histórico", response.error)
  {
    match response
    case Err(e) => Err(Failure("Falha ao buscar histórico", e))
    case Ok(d) =>
      var dados := OrElse(d, []);
      forall i | 0 <= i < |dados| ensures NumberTemplate(dados[i].idLegislatura) + "ª Legislature" <= MapCamaraHistoricoToLocal(dados[i]).cargo {
        HistoricoRole(dados[i]);
      }
      Ok(seq(|dados|, i requires 0 <= i < |dados| => MapCamaraHistoricoToLocal(dados[i])))
  }

  // ---------------------------------------------------------------------
  // getDeputyPresence

  /** An agenda event: its state and the deputy's attendance, each possibly missing. */
  datatype Evento = Evento(situacao: Nullable<string>, frequencia: Nullable<string>)

  /** `x?.toLowerCase() || ''`. */
  function LowerField(s: Nullable<string>): string {
    if s.Value? then Lower(s.v) else ""
  }

  /** An event counts when its lower-cased state mentions `realizada` or `emandada`. */
  predicate Held(e: Nullable<Evento>) {
    e.Value? && (Includes(LowerField(e.v.situacao), "realizada") || Includes(LowerField(e.v.situacao), "emandada"))
  }

  datatype Tally = Presence | JustifiedAbsence | UnjustifiedAbsence | NotCounted

  /** The counter one event increments. */
  function TallyOf(e: Nullable<Evento>): (r: Tally)
    ensures r == Presence <==> Held(e) && (LowerField(e.v.frequencia) == "presentes" || LowerField(e.v.frequencia) == "presença")
    ensures r == JustifiedAbsence <==> Held(e) && LowerField(e.v.frequencia) == "ausência justificada"
    ensures r == UnjustifiedAbsence <==> Held(e) && LowerField(e.v.frequencia) == "ausência"
  {
    if !Held(e) then NotCounted
    else
      var f := LowerField(e.v.frequencia);
      if f == "presentes" || f == "presença" then Presence
      else if f == "ausência justificada" then JustifiedAbsence
      else if f == "ausência" then UnjustifiedAbsence
      else NotCounted
  }

  /** How many events increment counter `t`. */
  function CountOf(events: seq<Nullable<Evento>>, t: Tally): (r: nat)
    ensures r <= |events|
  {
    if events == [] then 0
    else CountOf(events[..|events| - 1], t) + (if TallyOf(events[|events| - 1]) == t then 1 else 0)
  }

  /** The attendance summary of a list of events. */
  function Attendance(events: seq<Nullable<Evento>>): AttendanceStats {
    var p, j, u := CountOf(events, Presence), CountOf(events, JustifiedAbsence), CountOf(events, UnjustifiedAbsence);
    AttendanceStats(p + j + u, p, j, u)
  }

  /** The `forEach` over the events with its three counters. */
  method TallyPresence(eventos: seq<Nullable<Evento>>) returns (stats: AttendanceStats)
    ensures stats == Attendance(eventos)
  {
    var presencas, ausenciasJustificadas, ausenciasNaoJustificadas := 0, 0, 0;
    var i := 0;
    while i < |eventos|
      invariant 0 <= i <= |eventos|
      invariant presencas == CountOf(eventos[..i], Presence)
      invariant ausenciasJustificadas == CountOf(eventos[..i], JustifiedAbsence)
      invariant ausenciasNaoJustificadas == CountOf(eventos[..i], UnjustifiedAbsence)
    {
      assert eventos[..i + 1][..i] == eventos[..i];
      match TallyOf(eventos[i]) {
        case Presence => presencas := presencas + 1;
        case JustifiedAbsence => ausenciasJustificadas := ausenciasJustificadas + 1;
        case UnjustifiedAbsence => ausenciasNaoJustificadas := ausenciasNaoJustificadas + 1;
        case NotCounted =>
      }
      i := i + 1;
    }
    assert eventos[..|eventos|] == eventos;
    var sessoes := presencas + ausenciasJustificadas + ausenciasNaoJustificadas;
    stats := AttendanceStats(sessoes, presencas, ausenciasJustificadas, ausenciasNaoJustificadas);
  }

  /** `getDeputyPresence`: the tally of the events received (none when `dados` is missing), and
      all zeros when the request failed. */
  method GetDeputyPresence(response: Result<Nullable<seq<Nullable<Evento>>>, ApiError>) returns (stats: AttendanceStats)
    ensures response.Err? ==> stats == ZeroAttendance
    ensures response.Ok? ==> stats == Attendance(OrElse(response.value, []))
  {
    if response.Err? {
      return ZeroAttendance;
    }
    stats := TallyPresence(OrElse(response.value, []));
  }

  /** Each event falls under exactly one counter or none: the four counts add up to the number of events. */
  lemma {:induction false} CountsPartition(events: seq<Nullable<Evento>>)
    ensures CountOf(events, Presence) + CountOf(events, JustifiedAbsence) + CountOf(events, UnjustifiedAbsence)
            + CountOf(events, NotCounted) == |events|
  {
    if events != [] {
      CountsPartition(events[..|events| - 1]);
    }
  }

  /** The sessions are the three counters added up, and never more than the events received. */
  lemma SessionsBounded(events: seq<Nullable<Evento>>)
    ensures var a := Attendance(events);
            a.sessoes == a.presencas + a.ausenciasJustificadas + a.ausenciasNaoJustificadas
            && a.sessoes <= |events|
  {
    CountsPartition(events);
  }

  /** An event that was not held changes no counter. */
  lemma NotHeldIgnored(events: seq<Nullable<Evento>>, e: Nullable<Evento>)
    requires !Held(e)
    ensures Attendance(events + [e]) == Attendance(events)
  {
    assert (events + [e])[..|events|] == events;
  }

  /** Counting is additive over consecutive runs of events. */
  lemma {:induction false} CountAppend(a: seq<Nullable<Evento>>, b: seq<Nullable<Evento>>, t: Tally)
    ensures CountOf(a + b, t) == CountOf(a, t) + CountOf(b, t)
    decreases |b|
  {
    if b == [] {
      assert a + b == a;
    } else {
      assert (a + b)[..|a + b| - 1] == a + b[..|b| - 1];
      CountAppend(a, b[..|b| - 1], t);
    }
  }

  /** A session marked `Realizada` with attendance `Presença` counts as one presence. */
  lemma HeldPresence()
    ensures Attendance([Value(Evento(Value("Realizada"), Value("Presença")))]) == AttendanceStats(1, 1, 0, 0)
  {
    var e: Nullable<Evento> := Value(Evento(Value("Realizada"), Value("Presença")));
    assert Lower("Realizada") == "realizada";
    assert Lower("Presença") == "presença";
    assert "realizada" <= "realizada";
    assert TallyOf(e) == Presence;
    assert [e][..0] == [];
  }

  // ---------------------------------------------------------------------
  // getDeputyVotingStats

  /** `getDeputyVotingStats`: all zeros for every deputy, without a request. */
  function GetDeputyVotingStats(id: string): (r: VotingStats)
    ensures r.total == 0 && r.presentes == 0 && r.ausentes == 0 && r.abstencoes == 0
  {
    ZeroVotingStats
  }
}
