/** The workout shapes of project/src/types.ts. Dates are timestamps, an
    optional property is an `Option`, and the numeric fields are integers
    except the weight, which the form steps in halves. */
module Tipos {
  import opened Wrappers

  type UserId = string
  type Timestamp = int

  datatype TipoTreino = Forca | Cardio | Hiit | Yoga | Funcional | Pilates | Crossfit | Outro

  datatype Intensidade = Baixa | Media | Alta

  datatype StatusTreino = NaoIniciado | EmAndamento | Concluido

  datatype Exercicio = Exercicio(
    nome: string,
    series: int,
    repeticoes: int,
    peso: Option<real>,
    descanso: int,
    observacoes: Option<string>)

  datatype Comentario = Comentario(id: string, usuarioId: UserId, texto: string, criadoEm: Timestamp)

  /** `Treino`, plus the `ultimaAtualizacao` stamp that an edit adds. */
  datatype Treino = Treino(
    id: string,
    usuarioId: UserId,
    nome: string,
    tipo: TipoTreino,
    tipoPersonalizado: Option<string>,
    duracao: int,
    nivel: string,
    intensidade: Intensidade,
    objetivo: string,
    descricao: string,
    exercicios: seq<Exercicio>,
    criadoEm: Timestamp,
    status: StatusTreino,
    iniciadoEm: Option<Timestamp>,
    concluidoEm: Option<Timestamp>,
    ultimaAtualizacao: Option<Timestamp>,
    curtidas: int,
    comentarios: seq<Comentario>)
}
