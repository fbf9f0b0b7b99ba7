/** The normalizers of src/types/api-responses.ts: total, pure mappings from the upstream
    record shapes of the Câmara open-data API to the local records. */
module ApiResponses {
  import opened Js
  import opened Entities

  // ---------------------------------------------------------------------
  // Upstream shapes. Every field may be missing or null.

  datatype Gabinete = Gabinete(
    sala: Nullable<string>,
    predio: Nullable<string>,
    andar: Nullable<string>,
    email: Nullable<string>,
    telefone: Nullable<string>)

  const EmptyGabinete := Gabinete(Undefined, Undefined, Undefined, Undefined, Undefined)

  /** The `ultimoStatus` object of the detail endpoint. */
  datatype UltimoStatus = UltimoStatus(
    nome: Nullable<string>,
    siglaPartido: Nullable<string>,
    partido: Nullable<string>,
    siglaUf: Nullable<string>,
    urlFoto: Nullable<string>,
    escolaridade: Nullable<string>,
    idLegislatura: Nullable<int>,
    gabinete: Nullable<Gabinete>)

  const EmptyStatus := UltimoStatus(Undefined, Undefined, Undefined, Undefined, Undefined, Undefined, Undefined, Undefined)

  datatype DadosRef = DadosRef(id: Nullable<int>)

  /** A deputy record as the list endpoint (fields at the top) or the detail endpoint
      (fields under `ultimoStatus`) returns it. */
  datatype CamaraDeputado = CamaraDeputado(
    id: Nullable<int>,
    dados: Nullable<DadosRef>,
    nome: Nullable<string>,
    nomeCivil: Nullable<string>,
    siglaPartido: Nullable<string>,
    siglaUf: Nullable<string>,
    urlFoto: Nullable<string>,
    idLegislatura: Nullable<int>,
    dataNascimento: Nullable<string>,
    data: Nullable<string>,
    ufNascimento: Nullable<string>,
    municipioNascimento: Nullable<string>,
    escolaridade: Nullable<string>,
    gabinete: Nullable<Gabinete>,
    redeSocial: Nullable<seq<string>>,
    ultimoStatus: Nullable<UltimoStatus>)

  datatype StatusProposicao = StatusProposicao(sigla: Nullable<string>)

  datatype CamaraProposicao = CamaraProposicao(
    id: int,
    siglaTipo: Nullable<string>,
    numero: int,
    ano: int,
    ementa: Nullable<string>,
    statusProposicao: Nullable<StatusProposicao>,
    dataApresentacao: Nullable<string>)

  datatype Fornecedor = Fornecedor(nomeFornecedor: Nullable<string>)

  datatype CamaraDespesa = CamaraDespesa(
    mes: int,
    ano: int,
    tipoDespesa: Nullable<string>,
    valorDocumento: Nullable<int>,
    fornec: Nullable<Fornecedor>)

  datatype CamaraOrgao = CamaraOrgao(
    siglaOrgao: Nullable<string>,
    nomeOrgao: Nullable<string>,
    nomePublicacao: Nullable<string>,
    titulo: Nullable<string>,
    codTitulo: Nullable<string>,
    dataInicio: Nullable<string>,
    dataFim: Nullable<string>)

  datatype CamaraHistorico = CamaraHistorico(
    siglaPartido: Nullable<string>,
    siglaUf: Nullable<string>,
    idLegislatura: Nullable<int>,
    dataHora: Nullable<string>,
    condicaoEleitoral: Nullable<string>,
    descricaoStatus: Nullable<string>)

  // ---------------------------------------------------------------------
  // formatDate

  /** Element `i` of a destructured array, printed: `undefined` when it is missing. */
  function Piece(parts: seq<string>, i: nat): string {
    if i < |parts| then parts[i] else "undefined"
  }

  /** `formatDate(s)`. `localeDate` stands for `new Date(s).toLocaleDateString('pt-BR')`, the
      branch for strings with neither `-` nor `/`. */
  function FormatDate(s: string, localeDate: string -> string): (r: string)
    ensures s == "" ==> r == ""
    ensures '-' in s ==> '/' in r
    ensures '-' !in s && '/' in s ==> r == s
  {
    if s == "" then ""
    else if '-' in s then
      var parts := Split(s, '-');
      Piece(parts, 2) + "/" + Piece(parts, 1) + "/" + Piece(parts, 0)
    else if '/' in s then s
    else localeDate(s)
  }

  /** `formatDate` of a field that may be missing: `!dateString` sends `undefined` and `null` to `''`. */
  function FormatField(s: Nullable<string>, localeDate: string -> string): (r: string)
    ensures !s.Value? || s.v == "" ==> r == ""
    ensures s.Value? && '-' !in s.v && '/' in s.v ==> r == s.v
  {
    FormatDate(OrElse(s, ""), localeDate)
  }

  /** `YYYY-MM-DD` becomes `DD/MM/YYYY`. */
  lemma FormatIsoDate(y: string, m: string, d: string, localeDate: string -> string)
    requires '-' !in y && '-' !in m && '-' !in d
    ensures FormatDate(y + "-" + m + "-" + d, localeDate) == d + "/" + m + "/" + y
  {
    var s := y + "-" + m + "-" + d;
    assert s[|y|] == '-';
    assert s == y + ['-'] + (m + ['-'] + d);
    SplitCons(y, '-', m + ['-'] + d);
    SplitCons(m, '-', d);
    SplitNoSep(d, '-');
  }

  lemma IsoExampleText()
    ensures "2024-03-15" == "2024" + "-" + "03" + "-" + "15"
    ensures "15" + "/" + "03" + "/" + "2024" == "15/03/2024"
  {
  }

  lemma FormatDateIsoExample(localeDate: string -> string)
    ensures FormatDate("2024-03-15", localeDate) == "15/03/2024"
  {
    IsoExampleText();
    FormatIsoDate("2024", "03", "15", localeDate);
  }

  lemma NotADateText()
    ensures "not-a-date" == "not" + "-" + "a" + "-" + "date"
    ensures "date" + "/" + "a" + "/" + "not" == "date/a/not"
  {
  }

  /** Any text with a `-` is taken apart as if it were a date: `not-a-date` becomes `date/a/not`. */
  lemma FormatDateNotADate(localeDate: string -> string)
    ensures FormatDate("not-a-date", localeDate) == "date/a/not"
  {
    NotADateText();
    FormatIsoDate("not", "a", "date", localeDate);
  }

  /** Pieces beyond the third are ignored. */
  lemma FormatDateExtraPieces(y: string, m: string, d: string, rest: string, localeDate: string -> string)
    requires '-' !in y && '-' !in m && '-' !in d
    ensures FormatDate(y + "-" + m + "-" + d + "-" + rest, localeDate) == d + "/" + m + "/" + y
  {
    var s := y + "-" + m + "-" + d + "-" + rest;
    assert s[|y|] == '-';
    assert s == y + ['-'] + (m + ['-'] + (d + ['-'] + rest));
    SplitCons(y, '-', m + ['-'] + (d + ['-'] + rest));
    SplitCons(m, '-', d + ['-'] + rest);
    SplitCons(d, '-', rest);
  }

  /** A missing piece prints as `undefined`. */
  lemma FormatDateMissingPiece(y: string, m: string, localeDate: string -> string)
    requires '-' !in y && '-' !in m
    ensures FormatDate(y + "-" + m, localeDate) == "undefined/" + m + "/" + y
  {
    var t := y + "-" + m;
    assert t[|y|] == '-';
    assert t == y + ['-'] + m;
    SplitCons(y, '-', m);
    SplitNoSep(m, '-');
  }

  /** A date already in `DD/MM/YYYY` form (a `/` and no `-`) is returned unchanged. */
  lemma FormatDateSlash(s: string, localeDate: string -> string)
    requires '-' !in s && '/' in s
    ensures FormatDate(s, localeDate) == s
  {
  }

  /** Formatting a formatted date changes nothing, whenever the first formatting did not go
      through the locale branch. */
  lemma FormatDateIdempotent(s: string, localeDate: string -> string)
    requires s == "" || '-' in s || '/' in s
    ensures FormatDate(FormatDate(s, localeDate), localeDate) == FormatDate(s, localeDate)
  {
    if s != "" && '-' in s {
      var parts := Split(s, '-');
      var a, b, c := Piece(parts, 2), Piece(parts, 1), Piece(parts, 0);
      assert '-' !in "undefined";
      assert '-' !in a && '-' !in b && '-' !in c;
      var r := a + "/" + b + "/" + c;
      assert r[|a|] == '/';
      forall i | 0 <= i < |r|
        ensures r[i] != '-'
      {
        if i < |a| { assert r[i] == a[i]; }
        else if i == |a| { }
        else if i < |a| + 1 + |b| { assert r[i] == b[i - |a| - 1]; }
        else if i == |a| + 1 + |b| { }
        else { assert r[i] == c[i - |a| - 2 - |b|]; }
      }
    }
  }

  // ---------------------------------------------------------------------
  // Status normalisation

  /** The `switch` key: lower-cased, then trimmed. */
  function StatusKey(status: Nullable<string>): string {
    if status.Value? then Trim(Lower(status.v)) else ""
  }

  /** The proposal status a `switch` key selects. */
  function ProposalStatusOfKey(k: string): (r: ProposalStatus)
    ensures r == Aprovada <==> k == "aprovada"
    ensures r == Arquivada <==> k == "arquivada"
    ensures r == Rejeitada <==> k == "rejeitada"
  {
    if k == "aprovada" then Aprovada
    else if k == "em tramitação" || k == "em tramitacao" || k == "tramitação" || k == "tramitacao" then EmTramitacao
    else if k == "arquivada" then Arquivada
    else if k == "rejeitada" then Rejeitada
    else EmTramitacao
  }

  /** `normalizeProposalStatus`: the listed spellings, and `Em Tramitação` for anything else. */
  function NormalizeProposalStatus(status: Nullable<string>): (r: ProposalStatus)
    ensures r == Aprovada <==> StatusKey(status) == "aprovada"
    ensures r == Arquivada <==> StatusKey(status) == "arquivada"
    ensures r == Rejeitada <==> StatusKey(status) == "rejeitada"
    ensures !status.Value? ==> r == EmTramitacao
  {
    ProposalStatusOfKey(StatusKey(status))
  }

  /** The deputy status a `switch` key selects. */
  function DeputyStatusOfKey(k: string): (r: DeputyStatus)
    ensures r == Afastado <==> k == "afastado"
    ensures r == Licenciado <==> k == "licenciado"
  {
    if k == "exercício" || k == "exercicio" then Exercicio
    else if k == "afastado" then Afastado
    else if k == "licenciado" then Licenciado
    else Exercicio
  }

  /** `normalizeDeputyStatus`: `Exercício` for a missing or empty status and for anything unlisted. */
  function NormalizeDeputyStatus(status: Nullable<string>): (r: DeputyStatus)
    ensures r == Afastado <==> TruthyString(status) && StatusKey(status) == "afastado"
    ensures r == Licenciado <==> TruthyString(status) && StatusKey(status) == "licenciado"
    ensures !TruthyString(status) ==> r == Exercicio
  {
    if !TruthyString(status) then Exercicio else DeputyStatusOfKey(StatusKey(status))
  }

  /** The key ignores case and surrounding white space. */
  lemma StatusKeyInsensitive(s: string)
    ensures StatusKey(Value(Lower(s))) == StatusKey(Value(s))
    ensures StatusKey(Value(Trim(s))) == StatusKey(Value(s))
  {
    LowerIdempotent(s);
    TrimLower(s);
    TrimIdempotent(Lower(s));
  }

  /** The proposal normaliser ignores case and surrounding white space. */
  lemma ProposalStatusIgnoresCaseAndSpace(s: string)
    ensures NormalizeProposalStatus(Value(Lower(s))) == NormalizeProposalStatus(Value(s))
    ensures NormalizeProposalStatus(Value(Trim(s))) == NormalizeProposalStatus(Value(s))
  {
    StatusKeyInsensitive(s);
  }

  /** The deputy normaliser ignores case and surrounding white space; an all-blank status
      selects the default, as an empty one does. */
  lemma DeputyStatusIgnoresCaseAndSpace(s: string)
    ensures NormalizeDeputyStatus(Value(Lower(s))) == NormalizeDeputyStatus(Value(s))
    ensures NormalizeDeputyStatus(Value(Trim(s))) == NormalizeDeputyStatus(Value(s))
  {
    StatusKeyInsensitive(s);
    assert TruthyString(Value(Lower(s))) == TruthyString(Value(s));
    assert TruthyString(Value(Trim(s))) == (Trim(s) != "");
    if Trim(s) == "" {
      assert StatusKey(Value(Trim(s))) == "";
    }
  }

  /** Both normalisers ignore case and surrounding white space. */
  lemma StatusIgnoresCaseAndSpace(s: string)
    ensures NormalizeProposalStatus(Value(Lower(s))) == NormalizeProposalStatus(Value(s))
    ensures NormalizeProposalStatus(Value(Trim(s))) == NormalizeProposalStatus(Value(s))
    ensures NormalizeDeputyStatus(Value(Lower(s))) == NormalizeDeputyStatus(Value(s))
    ensures NormalizeDeputyStatus(Value(Trim(s))) == NormalizeDeputyStatus(Value(s))
  {
    ProposalStatusIgnoresCaseAndSpace(s);
    DeputyStatusIgnoresCaseAndSpace(s);
  }

  // ---------------------------------------------------------------------
  // Deputies

  /** `redes.find(r => r.includes(fragment)) || ''`, for a non-empty fragment. */
  function FirstIncluding(urls: seq<string>, fragment: string): (r: string)
    requires fragment != ""
    ensures r == "" <==> forall i :: 0 <= i < |urls| ==> !Includes(urls[i], fragment)
    ensures r != "" ==> exists i :: 0 <= i < |urls| && urls[i] == r && Includes(r, fragment)
                          && forall j :: 0 <= j < i ==> !Includes(urls[j], fragment)
  {
    if urls == [] then ""
    else if Includes(urls[0], fragment) then
      assert urls[0] != "";
      urls[0]
    else
      var r := FirstIncluding(urls[1..], fragment);
      assert forall i :: 1 <= i < |urls| ==> urls[i] == urls[1..][i - 1];
      r
  }

  /** `mapCamaraDeputyToLocal`. */
  function MapCamaraDeputyToLocal(d: CamaraDeputado, localeDate: string -> string): (r: Deputy)
    ensures r.situacao == Exercicio
    ensures r.carreira == [] && r.proposicoes == [] && r.despesas == [] && r.comissoes == []
    ensures r.votacoes == ZeroVotingStats && r.presenca == ZeroAttendance
    ensures r.nomeCompleto == r.nome
    ensures r.id != ""
  {
    var u := if d.ultimoStatus.Value? then d.ultimoStatus.v else EmptyStatus;
    var gab := OrElse(Coalesce(d.gabinete, u.gabinete), EmptyGabinete);
    var redes := OrElse(d.redeSocial, []);
    var id := Coalesce(d.id, if d.dados.Value? then d.dados.v.id else Undefined);
    var nome := OrElse(Coalesce(Coalesce(d.nome, d.nomeCivil), u.nome), "");
    Deputy(
      id := if TruthyNumber(id) then IntToString(id.v) else "unknown",
      nome := nome,
      nomeCompleto := nome,
      partido := OrElse(Coalesce(Coalesce(d.siglaPartido, u.siglaPartido), u.partido), ""),
      uf := OrElse(Coalesce(d.siglaUf, u.siglaUf), ""),
      foto := OrElse(Coalesce(d.urlFoto, u.urlFoto), ""),
      email := OrString(gab.email, ""),
      telefone := OrString(gab.telefone, ""),
      situacao := Exercicio,
      legislatura := OrElse(Coalesce(d.idLegislatura, u.idLegislatura), 0),
      dataNascimento := FormatDate(OrElse(Coalesce(d.dataNascimento, d.data), ""), localeDate),
      naturalidade := if TruthyString(d.ufNascimento)
                      then StringTemplate(d.municipioNascimento) + " - " + d.ufNascimento.v else "",
      escolaridade := OrElse(Coalesce(d.escolaridade, u.escolaridade), ""),
      redesSociais := SocialLinks(
        FirstIncluding(redes, "twitter"),
        FirstIncluding(redes, "instagram"),
        FirstIncluding(redes, "facebook"),
        FirstIncluding(redes, "youtube")),
      gabinete := Office(OrString(gab.sala, ""), OrString(gab.predio, ""), OrString(gab.andar, ""), OrString(gab.telefone, "")),
      carreira := [],
      proposicoes := [],
      despesas := [],
      votacoes := ZeroVotingStats,
      presenca := ZeroAttendance,
      comissoes := [])
  }

  /** The fields a deputy record carries either at the top or under `ultimoStatus`. */
  datatype StatusFields = StatusFields(
    nome: string, siglaPartido: string, siglaUf: string, urlFoto: string,
    escolaridade: string, idLegislatura: int, gabinete: Gabinete)

  /** The list endpoint's shape: the fields at the top, no `ultimoStatus`. */
  function ListShape(f: StatusFields, base: CamaraDeputado): CamaraDeputado {
    base.(nome := Value(f.nome), nomeCivil := Undefined, siglaPartido := Value(f.siglaPartido),
          siglaUf := Value(f.siglaUf), urlFoto := Value(f.urlFoto), escolaridade := Value(f.escolaridade),
          idLegislatura := Value(f.idLegislatura), gabinete := Value(f.gabinete), ultimoStatus := Undefined)
  }

  /** The detail endpoint's shape: the same fields under `ultimoStatus`, none at the top. */
  function DetailShape(f: StatusFields, base: CamaraDeputado): CamaraDeputado {
    base.(nome := Undefined, nomeCivil := Undefined, siglaPartido := Undefined, siglaUf := Undefined,
          urlFoto := Undefined, escolaridade := Undefined, idLegislatura := Undefined, gabinete := Undefined,
          ultimoStatus := Value(UltimoStatus(Value(f.nome), Value(f.siglaPartido), Undefined, Value(f.siglaUf),
                                             Value(f.urlFoto), Value(f.escolaridade), Value(f.idLegislatura),
                                             Value(f.gabinete))))
  }

  /** The two upstream shapes of the same deputy normalise to the same local record. */
  lemma ShapesAgree(f: StatusFields, base: CamaraDeputado, localeDate: string -> string)
    ensures MapCamaraDeputyToLocal(ListShape(f, base), localeDate) == MapCamaraDeputyToLocal(DetailShape(f, base), localeDate)
  {
  }

  /** A field present at the top wins over `ultimoStatus`; `ultimoStatus` is used only when the
      top-level field is missing or null. */
  lemma {:induction false} TopLevelFirst(d: CamaraDeputado, localeDate: string -> string)
    ensures var r := MapCamaraDeputyToLocal(d, localeDate);
            var u := if d.ultimoStatus.Value? then d.ultimoStatus.v else EmptyStatus;
      && (d.siglaUf.Value? ==> r.uf == d.siglaUf.v)
      && (!d.siglaUf.Value? && u.siglaUf.Value? ==> r.uf == u.siglaUf.v)
      && (d.urlFoto.Value? ==> r.foto == d.urlFoto.v)
      && (!d.urlFoto.Value? && u.urlFoto.Value? ==> r.foto == u.urlFoto.v)
      && (d.escolaridade.Value? ==> r.escolaridade == d.escolaridade.v)
      && (!d.escolaridade.Value? && u.escolaridade.Value? ==> r.escolaridade == u.escolaridade.v)
      && (d.idLegislatura.Value? ==> r.legislatura == d.idLegislatura.v)
      && (!d.idLegislatura.Value? && u.idLegislatura.Value? ==> r.legislatura == u.idLegislatura.v)
      && (d.siglaPartido.Value? ==> r.partido == d.siglaPartido.v)
      && (!d.siglaPartido.Value? && u.siglaPartido.Value? ==> r.partido == u.siglaPartido.v)
      && (!d.siglaPartido.Value? && !u.siglaPartido.Value? && u.partido.Value? ==> r.partido == u.partido.v)
      && (d.nome.Value? ==> r.nome == d.nome.v)
      && (!d.nome.Value? && d.nomeCivil.Value? ==> r.nome == d.nomeCivil.v)
      && (!d.nome.Value? && !d.nomeCivil.Value? && u.nome.Value? ==> r.nome == u.nome.v)
      && (!d.siglaUf.Value? && !u.siglaUf.Value? ==> r.uf == "")
      && (!d.urlFoto.Value? && !u.urlFoto.Value? ==> r.foto == "")
      && (!d.escolaridade.Value? && !u.escolaridade.Value? ==> r.escolaridade == "")
      && (!d.idLegislatura.Value? && !u.idLegislatura.Value? ==> r.legislatura == 0)
      && (!d.siglaPartido.Value? && !u.siglaPartido.Value? && !u.partido.Value? ==> r.partido == "")
      && (!d.nome.Value? && !d.nomeCivil.Value? && !u.nome.Value? ==> r.nome == "")
  {
  }

  /** The office is the top-level `gabinete` when there is one, else `ultimoStatus.gabinete`;
      e-mail and phone come only from it, empty when it has none. */
  lemma OfficeSource(d: CamaraDeputado, localeDate: string -> string)
    ensures var r := MapCamaraDeputyToLocal(d, localeDate);
            var u := if d.ultimoStatus.Value? then d.ultimoStatus.v else EmptyStatus;
            var gab := if d.gabinete.Value? then d.gabinete.v else if u.gabinete.Value? then u.gabinete.v else EmptyGabinete;
            && r.email == OrString(gab.email, "")
            && r.telefone == OrString(gab.telefone, "")
            && r.gabinete == Office(OrString(gab.sala, ""), OrString(gab.predio, ""), OrString(gab.andar, ""), OrString(gab.telefone, ""))
            && (!d.gabinete.Value? && !u.gabinete.Value? ==> r.email == "" && r.telefone == "")
  {
  }

  /** The id is the printed number for a truthy id (top-level first, then `dados.id`), `unknown` otherwise. */
  lemma DeputyId(d: CamaraDeputado, localeDate: string -> string)
    ensures var r := MapCamaraDeputyToLocal(d, localeDate);
            && (TruthyNumber(d.id) ==> r.id == IntToString(d.id.v))
            && (!d.id.Value? && d.dados.Value? && TruthyNumber(d.dados.v.id) ==> r.id == IntToString(d.dados.v.id.v))
            && (d.id == Value(0) ==> r.id == "unknown")
            && (!d.id.Value? && !d.dados.Value? ==> r.id == "unknown")
            && (!d.id.Value? && d.dados.Value? && !TruthyNumber(d.dados.v.id) ==> r.id == "unknown")
  {
  }

  /** Each social-link slot holds the first URL mentioning its platform, or `''`. */
  lemma SocialLinkSlots(d: CamaraDeputado, localeDate: string -> string)
    ensures var r := MapCamaraDeputyToLocal(d, localeDate).redesSociais;
            var redes := OrElse(d.redeSocial, []);
            && r.twitter == FirstIncluding(redes, "twitter")
            && r.instagram == FirstIncluding(redes, "instagram")
            && r.facebook == FirstIncluding(redes, "facebook")
            && r.youtube == FirstIncluding(redes, "youtube")
  {
  }

  /** The birth date is `formatDate` of `dataNascimento`, else `data`, else `''`; the birthplace is
      `<municipio> - <uf>` when there is a birth state, `''` otherwise. */
  lemma BirthFields(d: CamaraDeputado, localeDate: string -> string)
    ensures var r := MapCamaraDeputyToLocal(d, localeDate);
            && (d.dataNascimento.Value? ==> r.dataNascimento == FormatDate(d.dataNascimento.v, localeDate))
            && (!d.dataNascimento.Value? && d.data.Value? ==> r.dataNascimento == FormatDate(d.data.v, localeDate))
            && (!d.dataNascimento.Value? && !d.data.Value? ==> r.dataNascimento == "")
            && (TruthyString(d.ufNascimento) && d.municipioNascimento.Value? ==>
                  r.naturalidade == d.municipioNascimento.v + " - " + d.ufNascimento.v)
            && (TruthyString(d.ufNascimento) && !d.municipioNascimento.Value? ==>
                  r.naturalidade == StringTemplate(d.municipioNascimento) + " - " + d.ufNascimento.v)
            && (!TruthyString(d.ufNascimento) ==> r.naturalidade == "")
  {
  }

  // ---------------------------------------------------------------------
  // Proposals, expenses, organs, career history

  /** `mapCamaraProposicaoToLocal`. */
  function MapCamaraProposicaoToLocal(p: CamaraProposicao, localeDate: string -> string): (r: Proposicao)
    ensures r.id == IntToString(p.id) && r.numero == p.numero && r.ano == p.ano
    ensures TruthyString(p.siglaTipo) ==> r.tipo == p.siglaTipo.v
    ensures !TruthyString(p.siglaTipo) ==> r.tipo == ""
    ensures TruthyString(p.ementa) ==> r.ementa == p.ementa.v
    ensures !TruthyString(p.ementa) ==> r.ementa == ""
    ensures r.dataApresentacao == FormatField(p.dataApresentacao, localeDate)
    ensures r.status == NormalizeProposalStatus(if p.statusProposicao.Value? then p.statusProposicao.v.sigla else Undefined)
    ensures !p.statusProposicao.Value? ==> r.status == EmTramitacao
  {
    Proposicao(
      id := IntToString(p.id),
      tipo := OrString(p.siglaTipo, ""),
      numero := p.numero,
      ano := p.ano,
      ementa := OrString(p.ementa, ""),
      status := NormalizeProposalStatus(if p.statusProposicao.Value? then p.statusProposicao.v.sigla else Undefined),
      dataApresentacao := FormatField(p.dataApresentacao, localeDate))
  }

  /** `mapCamaraDespesaToLocal`: missing text becomes `''`, a missing value 0. */
  function MapCamaraDespesaToLocal(e: CamaraDespesa): (r: Despesa)
    ensures r.mes == e.mes && r.ano == e.ano
    ensures TruthyString(e.tipoDespesa) ==> r.categoria == e.tipoDespesa.v
    ensures !TruthyString(e.tipoDespesa) ==> r.categoria == ""
    ensures TruthyNumber(e.valorDocumento) ==> r.valor == e.valorDocumento.v
    ensures !TruthyNumber(e.valorDocumento) ==> r.valor == 0
    ensures e.fornec.Value? && TruthyString(e.fornec.v.nomeFornecedor) ==> r.fornecedor == e.fornec.v.nomeFornecedor.v
    ensures !(e.fornec.Value? && TruthyString(e.fornec.v.nomeFornecedor)) ==> r.fornecedor == ""
  {
    Despesa(
      mes := e.mes,
      ano := e.ano,
      categoria := OrString(e.tipoDespesa, ""),
      valor := if TruthyNumber(e.valorDocumento) then e.valorDocumento.v else 0,
      fornecedor := if e.fornec.Value? then OrString(e.fornec.v.nomeFornecedor, "") else "")
  }

  /** `mapCamaraOrgaoToLocal`. */
  function MapCamaraOrgaoToLocal(o: CamaraOrgao, localeDate: string -> string): (r: Comissao)
    ensures r.titulo == "" <==> !TruthyString(o.titulo) || o.titulo.v == "null"
    ensures r.titulo != "" ==> r.titulo == o.titulo.v
    ensures TruthyString(o.nomePublicacao) ==> r.nome == o.nomePublicacao.v
    ensures !TruthyString(o.nomePublicacao) && TruthyString(o.nomeOrgao) ==> r.nome == o.nomeOrgao.v
    ensures !TruthyString(o.nomePublicacao) && !TruthyString(o.nomeOrgao) ==> r.nome == ""
    ensures TruthyString(o.siglaOrgao) ==> r.sigla == o.siglaOrgao.v
    ensures !TruthyString(o.siglaOrgao) ==> r.sigla == ""
    ensures TruthyString(o.codTitulo) ==> r.tipo == o.codTitulo.v
    ensures !TruthyString(o.codTitulo) ==> r.tipo == ""
    ensures r.dataInicio == FormatField(o.dataInicio, localeDate)
    ensures r.dataFim.None? <==> !TruthyString(o.dataFim)
    ensures r.dataFim.Some? ==> r.dataFim.value == FormatDate(o.dataFim.v, localeDate)
  {
    Comissao(
      nome := OrString(o.nomePublicacao, OrString(o.nomeOrgao, "")),
      sigla := OrString(o.siglaOrgao, ""),
      tipo := OrString(o.codTitulo, ""),
      titulo := if TruthyString(o.titulo) && o.titulo.v != "null" then o.titulo.v else "",
      dataInicio := FormatField(o.dataInicio, localeDate),
      dataFim := if TruthyString(o.dataFim) then Some(FormatDate(o.dataFim.v, localeDate)) else None)
  }

  /** `historico.dataHora?.split('T')[0].split('-') || []`. */
  function DateParts(dataHora: Nullable<string>): seq<string> {
    if dataHora.Value? then Split(Split(dataHora.v, 'T')[0], '-') else []
  }

  /** `dataParts[0] ? parseInt(dataParts[0]) : 0`. */
  function HistoricoYear(parts: seq<string>): ParsedYear {
    if |parts| > 0 && parts[0] != "" then
      match ParseInt(parts[0])
      case Int(n) => Year(n)
      case NaN => NotANumber
    else Year(0)
  }

  /** `DD/MM/YYYY` when the date had exactly three pieces, `''` otherwise. */
  function HistoricoDate(parts: seq<string>): string {
    if |parts| == 3 then parts[2] + "/" + parts[1] + "/" + parts[0] else ""
  }

  /** The role text before trimming: term, party in parentheses, `- UF`. */
  function RoleText(h: CamaraHistorico): string {
    var partido := if TruthyString(h.siglaPartido) then "(" + h.siglaPartido.v + ")" else "";
    var uf := if TruthyString(h.siglaUf) then "- " + h.siglaUf.v else "";
    NumberTemplate(h.idLegislatura) + "ª Legislature " + partido + " " + uf
  }

  /** The description text before trimming. */
  function DescriptionText(h: CamaraHistorico): string {
    HistoricoDate(DateParts(h.dataHora)) + " - " + OrString(h.descricaoStatus, "Não informado")
  }

  /** `mapCamaraHistoricoToLocal`. The election condition it computes is never used, so it is not modelled. */
  function MapCamaraHistoricoToLocal(h: CamaraHistorico): (r: CareerEvent)
    ensures !h.dataHora.Value? ==> r.ano == Year(0)
  {
    CareerEvent(HistoricoYear(DateParts(h.dataHora)), Trim(RoleText(h)), Trim(DescriptionText(h)))
  }

  /** A timestamp `Y-M-DThh:mm` splits into the pieces `Y`, `M`, `D`. */
  lemma {:induction false} DatePartsOf(y: string, m: string, d: string, time: string)
    requires '-' !in y && '-' !in m && '-' !in d && 'T' !in y && 'T' !in m && 'T' !in d
    ensures DateParts(Value(y + "-" + m + "-" + d + "T" + time)) == [y, m, d]
  {
    var date := y + "-" + m + "-" + d;
    assert 'T' !in date;
    assert y + "-" + m + "-" + d + "T" + time == date + ['T'] + time;
    SplitCons(date, 'T', time);
    assert date == y + ['-'] + (m + ['-'] + d);
    SplitCons(y, '-', m + ['-'] + d);
    SplitCons(m, '-', d);
    SplitNoSep(d, '-');
  }

  /** A full timestamp `YYYY-MM-DDThh:mm` gives the year and a `DD/MM/YYYY` description. */
  lemma HistoricoDated(year: nat, m: string, d: string, time: string, h: CamaraHistorico)
    requires '-' !in m && '-' !in d && 'T' !in m && 'T' !in d
    requires d != "" && !IsWhite(d[0])
    requires h.dataHora == Value(NatToString(year) + "-" + m + "-" + d + "T" + time)
    requires TruthyString(h.descricaoStatus) && !IsWhite(h.descricaoStatus.v[|h.descricaoStatus.v| - 1])
    ensures MapCamaraHistoricoToLocal(h).ano == Year(year)
    ensures MapCamaraHistoricoToLocal(h).descricao
         == d + "/" + m + "/" + NatToString(year) + " - " + h.descricaoStatus.v
  {
    HistoricoParts(year, m, d, time, h);
    var parts := DateParts(h.dataHora);
    PartsYear(parts, year, m, d);
    var date := d + "/" + m + "/" + NatToString(year);
    assert HistoricoDate(parts) == date;
    DatedText(h, date);
  }

  lemma PartsYear(parts: seq<string>, year: nat, m: string, d: string)
    requires parts == [NatToString(year), m, d]
    ensures HistoricoYear(parts) == Year(year)
  {
    ParseNatToString(year);
  }

  lemma DatedText(h: CamaraHistorico, date: string)
    requires HistoricoDate(DateParts(h.dataHora)) == date && date != "" && !IsWhite(date[0])
    requires TruthyString(h.descricaoStatus) && !IsWhite(h.descricaoStatus.v[|h.descricaoStatus.v| - 1])
    ensures Trim(DescriptionText(h)) == date + " - " + h.descricaoStatus.v
  {
    DatedDescription(date, h.descricaoStatus.v);
  }

  lemma HistoricoParts(year: nat, m: string, d: string, time: string, h: CamaraHistorico)
    requires '-' !in m && '-' !in d && 'T' !in m && 'T' !in d
    requires h.dataHora == Value(NatToString(year) + "-" + m + "-" + d + "T" + time)
    ensures DateParts(h.dataHora) == [NatToString(year), m, d]
  {
    DigitsHaveNoSeparators(NatToString(year));
    DatePartsOf(NatToString(year), m, d, time);
  }

  lemma DatedDescription(date: string, status: string)
    requires date != "" && !IsWhite(date[0])
    requires status != "" && !IsWhite(status[|status| - 1])
    ensures Trim(date + " - " + status) == date + " - " + status
  {
    var text := date + " - " + status;
    assert text[0] == date[0] && text[|text| - 1] == status[|status| - 1];
    TrimUnchanged(text);
  }

  lemma DigitsHaveNoSeparators(y: string)
    requires forall i :: 0 <= i < |y| ==> IsDigit(y[i])
    ensures 'T' !in y && '-' !in y
  {
    forall i | 0 <= i < |y|
      ensures y[i] != 'T' && y[i] != '-'
    {
      assert IsDigit(y[i]);
    }
  }

  /** With no date and no status text the description is `- Não informado`. */
  lemma HistoricoUndated(h: CamaraHistorico)
    requires !h.dataHora.Value? && !TruthyString(h.descricaoStatus)
    ensures MapCamaraHistoricoToLocal(h).descricao == "- Não informado"
    ensures MapCamaraHistoricoToLocal(h).ano == Year(0)
  {
    HistoricoDescription(h);
    UndatedText();
  }

  lemma UndatedText()
    ensures TrimStart(HistoricoDate([]) + " ") + ("- " + "Não informado") == "- Não informado"
  {
    assert HistoricoDate([]) + " " == " ";
    assert TrimStart(" ") == TrimStart("");
  }

  /** The trimmed role always begins with the term number followed by `ª Legislature`. */
  lemma HistoricoRole(h: CamaraHistorico)
    ensures NumberTemplate(h.idLegislatura) + "ª Legislature" <= MapCamaraHistoricoToLocal(h).cargo
  {
    var n := NumberTemplate(h.idLegislatura);
    var core := n + "ª Legislature";
    var rest := RoleText(h)[|core|..];
    RolePrefix(h);
    assert RoleText(h) == "" + core + rest;
    TrimAround("", core, rest);
  }

  lemma RolePrefix(h: CamaraHistorico)
    ensures var core := NumberTemplate(h.idLegislatura) + "ª Legislature";
            core <= RoleText(h) && !IsWhite(core[0]) && !IsWhite(core[|core| - 1])
  {
  }

  /** The trimmed description ends with `- ` and the status text, or `Não informado` without one. */
  lemma HistoricoDescription(h: CamaraHistorico)
    requires var status := OrString(h.descricaoStatus, "Não informado"); !IsWhite(status[|status| - 1])
    ensures MapCamaraHistoricoToLocal(h).descricao
         == TrimStart(HistoricoDate(DateParts(h.dataHora)) + " ") + ("- " + OrString(h.descricaoStatus, "Não informado"))
  {
    var status := OrString(h.descricaoStatus, "Não informado");
    var date := HistoricoDate(DateParts(h.dataHora));
    DescriptionSplit(date, status);
    TrimKeepsTail(date + " ", "- " + status);
  }

  lemma DescriptionSplit(date: string, status: string)
    requires status != [] && !IsWhite(status[|status| - 1])
    ensures date + " - " + status == (date + " ") + ("- " + status)
    ensures var b := "- " + status; !IsWhite(b[0]) && !IsWhite(b[|b| - 1])
  {
  }
}
