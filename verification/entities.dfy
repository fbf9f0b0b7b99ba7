/** The application's local records (the interfaces declared in src/data/mockDeputies.ts). */
module Entities {
  import opened Js

  datatype DeputyStatus = Exercicio | Afastado | Licenciado

  datatype ProposalStatus = Aprovada | EmTramitacao | Arquivada | Rejeitada

  /** The text the UI shows for a deputy status. */
  function DeputyStatusText(s: DeputyStatus): string {
    match s
    case Exercicio => "Exercício"
    case Afastado => "Afastado"
    case Licenciado => "Licenciado"
  }

  /** The text the UI shows for a proposal status. */
  function ProposalStatusText(s: ProposalStatus): string {
    match s
    case Aprovada => "Aprovada"
    case EmTramitacao => "Em Tramitação"
    case Arquivada => "Arquivada"
    case Rejeitada => "Rejeitada"
  }

  datatype ParsedYear = Year(value: int) | NotANumber

  datatype CareerEvent = CareerEvent(ano: ParsedYear, cargo: string, descricao: string)

  datatype Proposicao = Proposicao(
    id: string,
    tipo: string,
    numero: int,
    ano: int,
    ementa: string,
    status: ProposalStatus,
    dataApresentacao: string)

  /** One expense line; `valor` is in centavos. */
  datatype Despesa = Despesa(mes: int, ano: int, categoria: string, valor: int, fornecedor: string)

  datatype VotingStats = VotingStats(total: nat, presentes: nat, ausentes: nat, abstencoes: nat)

  datatype AttendanceStats = AttendanceStats(
    sessoes: nat,
    presencas: nat,
    ausenciasJustificadas: nat,
    ausenciasNaoJustificadas: nat)

  const ZeroVotingStats := VotingStats(0, 0, 0, 0)
  const ZeroAttendance := AttendanceStats(0, 0, 0, 0)

  datatype SocialLinks = SocialLinks(twitter: string, instagram: string, facebook: string, youtube: string)

  datatype Office = Office(sala: string, predio: string, andar: string, telefone: string)

  datatype Comissao = Comissao(nome: string, sigla: string, tipo: string, titulo: string, dataInicio: string, dataFim: Option<string>)

  datatype Deputy = Deputy(
    id: string,
    nome: string,
    nomeCompleto: string,
    partido: string,
    uf: string,
    foto: string,
    email: string,
    telefone: string,
    situacao: DeputyStatus,
    legislatura: int,
    dataNascimento: string,
    naturalidade: string,
    escolaridade: string,
    redesSociais: SocialLinks,
    gabinete: Office,
    carreira: seq<CareerEvent>,
    proposicoes: seq<Proposicao>,
    despesas: seq<Despesa>,
    votacoes: VotingStats,
    presenca: AttendanceStats,
    comissoes: seq<string>)
}
