/** The workout list of project/src/pages/Treinos.tsx: the list the page
    keeps in its `treinos` state, the filtered view, the status statistics,
    and the handlers that replace the list by a new one. Each handler is a
    function from the old list to the new one; persisting the list and the
    modal and error state are left out. */
module Treinos {
  import opened Wrappers
  import opened Seqs
  import opened Strings
  import opened Tipos
  import opened FormularioTreino

  /** A select filter: `'todos'` or one value. */
  datatype Filtro<T> = Todos | Apenas(valor: T)

  /** No two workouts of the list share an id (ids are random strings). */
  ghost predicate IdsUnicos(ts: seq<Treino>) {
    forall i, j :: 0 <= i < j < |ts| ==> ts[i].id != ts[j].id
  }

  function DoUsuario(uid: UserId): Treino -> bool {
    (t: Treino) => t.usuarioId == uid
  }

  /** The list on load: the stored workouts of the signed-in user, in stored
      order, and none without a user. */
  function TreinosDoUsuario(carregados: seq<Treino>, usuario: Option<UserId>): (r: seq<Treino>)
    ensures usuario.None? ==> r == []
    ensures usuario.Some? ==> forall t :: t in r <==> t in carregados && t.usuarioId == usuario.value
    ensures IsSubsequence(r, carregados)
  {
    if usuario.Some? then
      FilterIsSubsequence(carregados, DoUsuario(usuario.value));
      Filter(carregados, DoUsuario(usuario.value))
    else
      assert EmbedsAt([], carregados, []);
      []
  }

  function PassaTipo(f: Filtro<TipoTreino>): Treino -> bool {
    (t: Treino) => f.Todos? || t.tipo == f.valor
  }

  function PassaStatus(f: Filtro<StatusTreino>): Treino -> bool {
    (t: Treino) => f.Todos? || t.status == f.valor
  }

  /** The search: empty, or contained case-insensitively in the name or in
      the goal. */
  function CasaBusca(busca: string): Treino -> bool {
    (t: Treino) =>
      || busca == ""
      || Includes(ToLowerCase(t.nome), ToLowerCase(busca))
      || Includes(ToLowerCase(t.objetivo), ToLowerCase(busca))
  }

  /** All three tests of the view at once. */
  function PassaFiltros(ft: Filtro<TipoTreino>, fs: Filtro<StatusTreino>, busca: string): Treino -> bool {
    (t: Treino) => PassaTipo(ft)(t) && PassaStatus(fs)(t) && CasaBusca(busca)(t)
  }

  /** `treinosFiltrados`: the type filter, then the status filter, then the
      search. A workout is shown exactly when it is in the list and passes
      all three. */
  function TreinosFiltrados(ts: seq<Treino>, ft: Filtro<TipoTreino>, fs: Filtro<StatusTreino>, busca: string): (r: seq<Treino>)
    ensures forall t :: t in r <==> t in ts && PassaTipo(ft)(t) && PassaStatus(fs)(t) && CasaBusca(busca)(t)
  {
    Filter(Filter(Filter(ts, PassaTipo(ft)), PassaStatus(fs)), CasaBusca(busca))
  }

  /** The chain of three filters is one pass that keeps the workouts passing
      every test, so the view keeps the order of the list. */
  lemma FiltradosEmUmaPassada(ts: seq<Treino>, ft: Filtro<TipoTreino>, fs: Filtro<StatusTreino>, busca: string)
    ensures TreinosFiltrados(ts, ft, fs, busca) == Filter(ts, PassaFiltros(ft, fs, busca))
    ensures IsSubsequence(TreinosFiltrados(ts, ft, fs, busca), ts)
  {
    var ambos := (t: Treino) => PassaTipo(ft)(t) && PassaStatus(fs)(t);
    FilterFuse(ts, PassaTipo(ft), PassaStatus(fs), ambos);
    FilterFuse(ts, ambos, CasaBusca(busca), PassaFiltros(ft, fs, busca));
    FilterIsSubsequence(ts, PassaFiltros(ft, fs, busca));
  }

  /** With both selects on 'todos' and no search the view is the whole list. */
  lemma SemFiltrosMostraTudo(ts: seq<Treino>)
    ensures TreinosFiltrados(ts, Todos, Todos, "") == ts
  {
    FilterAll(ts, PassaTipo(Todos));
    FilterAll(ts, PassaStatus(Todos));
    FilterAll(ts, CasaBusca(""));
  }

  /** The search ignores case: a term and its lower case find the same
      workouts. */
  lemma BuscaIgnoraCaixa(busca: string, t: Treino)
    ensures CasaBusca(busca)(t) == CasaBusca(ToLowerCase(busca))(t)
  {
    ToLowerCaseIdempotente(busca);
  }

  /** A workout whose name or goal contains the term as typed is found. */
  lemma BuscaAchaTrechoExato(busca: string, t: Treino)
    requires Includes(t.nome, busca) || Includes(t.objetivo, busca)
    ensures CasaBusca(busca)(t)
  {
    if Includes(t.nome, busca) {
      IncludesToLower(t.nome, busca);
    } else {
      IncludesToLower(t.objetivo, busca);
    }
  }

  function ComStatus(s: StatusTreino): Treino -> bool {
    (t: Treino) => t.status == s
  }

  /** How many workouts of the list have status `s`. */
  function Quantos(ts: seq<Treino>, s: StatusTreino): nat {
    |Filter(ts, ComStatus(s))|
  }

  /** Every workout has exactly one of the three statuses. */
  lemma {:induction false} StatusParticiona(ts: seq<Treino>)
    ensures Quantos(ts, Concluido) + Quantos(ts, EmAndamento) + Quantos(ts, NaoIniciado) == |ts|
    decreases |ts|
  {
    if ts != [] {
      StatusParticiona(ts[1..]);
    }
  }

  datatype Estatisticas = Estatisticas(total: nat, concluidos: nat, emAndamento: nat, naoIniciados: nat)

  /** `estatisticasTreinos`: the three status counts add up to the total. */
  function EstatisticasTreinos(ts: seq<Treino>): (e: Estatisticas)
    ensures e.total == |ts|
    ensures e.concluidos + e.emAndamento + e.naoIniciados == e.total
    ensures e.concluidos <= e.total && e.emAndamento <= e.total && e.naoIniciados <= e.total
  {
    StatusParticiona(ts);
    Estatisticas(|ts|, Quantos(ts, Concluido), Quantos(ts, EmAndamento), Quantos(ts, NaoIniciado))
  }

  /** `prev.map(t => t.id === id ? novo : t)`: every workout carrying `id` is
      replaced by `novo`, every other one stays where it is. */
  function Substituir(ts: seq<Treino>, id: string, novo: Treino): (r: seq<Treino>)
    ensures |r| == |ts|
    ensures forall i :: 0 <= i < |ts| ==> r[i] == if ts[i].id == id then novo else ts[i]
  {
    Map(ts, (t: Treino) => if t.id == id then novo else t)
  }

  /** With unique ids, replacing `ts[k]` by a record with the same id keeps
      the ids unique and moves one workout from its old status count to the
      new one. */
  lemma SubstituirUnico(ts: seq<Treino>, k: nat, novo: Treino, s: StatusTreino)
    requires IdsUnicos(ts) && k < |ts| && novo.id == ts[k].id
    ensures IdsUnicos(Substituir(ts, ts[k].id, novo))
    ensures Quantos(Substituir(ts, ts[k].id, novo), s)
      == Quantos(ts, s) - (if ts[k].status == s then 1 else 0) + (if novo.status == s then 1 else 0)
  {
    var r := Substituir(ts, ts[k].id, novo);
    forall j | 0 <= j < |ts| && j != k ensures ts[j] == r[j] {
      assert ts[j].id != ts[k].id;
    }
    FilterReplace(ts, r, k, ComStatus(s));
  }

  /** The record `handleIniciarTreino` stores. */
  function ComoIniciado(t: Treino, agora: Timestamp): Treino {
    t.(status := EmAndamento, iniciadoEm := Some(agora))
  }

  /** The record `handleConcluirTreino` stores. */
  function ComoConcluido(t: Treino, agora: Timestamp): Treino {
    t.(status := Concluido, concluidoEm := Some(agora))
  }

  /** `handleIniciarTreino`: each entry with the workout's id becomes that
      workout, now in progress since `agora`; all other entries stay. */
  function HandleIniciarTreino(ts: seq<Treino>, treino: Treino, agora: Timestamp): (r: seq<Treino>)
    ensures |r| == |ts|
    ensures forall i :: 0 <= i < |ts| && ts[i].id == treino.id ==>
      r[i] == treino.(status := EmAndamento, iniciadoEm := Some(agora))
    ensures forall i :: 0 <= i < |ts| && ts[i].id != treino.id ==> r[i] == ts[i]
  {
    Substituir(ts, treino.id, ComoIniciado(treino, agora))
  }

  /** `handleConcluirTreino`: each entry with the workout's id becomes that
      workout, now concluded at `agora`; all other entries stay. */
  function HandleConcluirTreino(ts: seq<Treino>, treino: Treino, agora: Timestamp): (r: seq<Treino>)
    ensures |r| == |ts|
    ensures forall i :: 0 <= i < |ts| && ts[i].id == treino.id ==>
      r[i] == treino.(status := Concluido, concluidoEm := Some(agora))
    ensures forall i :: 0 <= i < |ts| && ts[i].id != treino.id ==> r[i] == ts[i]
  {
    Substituir(ts, treino.id, ComoConcluido(treino, agora))
  }

  /** Starting a not-started workout of a list with unique ids moves it from
      the not-started count to the in-progress count. */
  lemma IniciarNasEstatisticas(ts: seq<Treino>, k: nat, agora: Timestamp)
    requires IdsUnicos(ts) && k < |ts| && ts[k].status == NaoIniciado
    ensures var antes, depois := EstatisticasTreinos(ts), EstatisticasTreinos(HandleIniciarTreino(ts, ts[k], agora));
      && depois.total == antes.total && depois.concluidos == antes.concluidos
      && depois.emAndamento == antes.emAndamento + 1 && depois.naoIniciados + 1 == antes.naoIniciados
    ensures IdsUnicos(HandleIniciarTreino(ts, ts[k], agora))
  {
    SubstituirUnico(ts, k, ComoIniciado(ts[k], agora), Concluido);
    SubstituirUnico(ts, k, ComoIniciado(ts[k], agora), EmAndamento);
    SubstituirUnico(ts, k, ComoIniciado(ts[k], agora), NaoIniciado);
  }

  /** Concluding an in-progress workout of a list with unique ids moves it
      from the in-progress count to the concluded count. */
  lemma ConcluirNasEstatisticas(ts: seq<Treino>, k: nat, agora: Timestamp)
    requires IdsUnicos(ts) && k < |ts| && ts[k].status == EmAndamento
    ensures var antes, depois := EstatisticasTreinos(ts), EstatisticasTreinos(HandleConcluirTreino(ts, ts[k], agora));
      && depois.total == antes.total && depois.naoIniciados == antes.naoIniciados
      && depois.concluidos == antes.concluidos + 1 && depois.emAndamento + 1 == antes.emAndamento
    ensures IdsUnicos(HandleConcluirTreino(ts, ts[k], agora))
  {
    SubstituirUnico(ts, k, ComoConcluido(ts[k], agora), Concluido);
    SubstituirUnico(ts, k, ComoConcluido(ts[k], agora), EmAndamento);
    SubstituirUnico(ts, k, ComoConcluido(ts[k], agora), NaoIniciado);
  }

  /** The status buttons of a card: 'Iniciar' on a workout not started,
      'Concluir' on one in progress, none on a concluded one. */
  datatype Acao = Iniciar | Concluir

  function AcaoOferecida(s: StatusTreino): (a: Option<Acao>)
    ensures a == Some(Iniciar) <==> s == NaoIniciado
    ensures a == Some(Concluir) <==> s == EmAndamento
    ensures a.None? <==> s == Concluido
  {
    match s
    case NaoIniciado => Some(Iniciar)
    case EmAndamento => Some(Concluir)
    case Concluido => None
  }

  /** The position of a status on the way nao_iniciado, em_andamento, concluido. */
  function Etapa(s: StatusTreino): nat {
    match s
    case NaoIniciado => 0
    case EmAndamento => 1
    case Concluido => 2
  }

  /** The list after pressing a card's button. */
  function Pressionar(ts: seq<Treino>, treino: Treino, a: Acao, agora: Timestamp): seq<Treino> {
    match a
    case Iniciar => HandleIniciarTreino(ts, treino, agora)
    case Concluir => HandleConcluirTreino(ts, treino, agora)
  }

  /** The button offered on a card moves that workout exactly one step
      forward, so a workout never goes back and a concluded one offers
      nothing. */
  lemma BotaoAvancaUmaEtapa(ts: seq<Treino>, k: nat, agora: Timestamp)
    requires k < |ts|
    ensures ts[k].status == Concluido <==> AcaoOferecida(ts[k].status).None?
    ensures AcaoOferecida(ts[k].status).Some? ==>
      Etapa(Pressionar(ts, ts[k], AcaoOferecida(ts[k].status).value, agora)[k].status) == Etapa(ts[k].status) + 1
  {
  }

  /** The form fields of a stored workout. */
  function DadosDe(t: Treino): DadosTreino {
    DadosTreino(t.nome, t.tipo, t.tipoPersonalizado, t.duracao, t.nivel, t.descricao, t.intensidade, t.objetivo, t.exercicios)
  }

  /** The record `handleNovoTreino` builds: the random id, the user's id (or
      '' without a user), the form data, the clock, and a fresh workout's
      status, likes and comments. */
  function NovoTreino(dados: DadosTreino, usuario: Option<UserId>, novoId: string, agora: Timestamp): (t: Treino)
    ensures DadosDe(t) == dados
    ensures t.id == novoId && t.usuarioId == (if usuario.Some? then usuario.value else "")
    ensures t.status == NaoIniciado && t.curtidas == 0 && t.comentarios == [] && t.criadoEm == agora
    ensures t.iniciadoEm.None? && t.concluidoEm.None? && t.ultimaAtualizacao.None?
  {
    Treino(novoId, if usuario.Some? then usuario.value else "",
           dados.nome, dados.tipo, dados.tipoPersonalizado, dados.duracao, dados.nivel,
           dados.intensidade, dados.objetivo, dados.descricao, dados.exercicios,
           agora, NaoIniciado, None, None, None, 0, [])
  }

  /** `handleNovoTreino`: the new workout goes at the end. */
  function HandleNovoTreino(ts: seq<Treino>, dados: DadosTreino, usuario: Option<UserId>, novoId: string, agora: Timestamp): (r: seq<Treino>)
    ensures |r| == |ts| + 1 && r[..|ts|] == ts
    ensures r[|ts|] == NovoTreino(dados, usuario, novoId, agora)
  {
    ts + [NovoTreino(dados, usuario, novoId, agora)]
  }

  /** With an id not yet in the list the ids stay unique. */
  lemma NovoIdsUnicos(ts: seq<Treino>, dados: DadosTreino, usuario: Option<UserId>, novoId: string, agora: Timestamp)
    requires IdsUnicos(ts) && forall i :: 0 <= i < |ts| ==> ts[i].id != novoId
    ensures IdsUnicos(HandleNovoTreino(ts, dados, usuario, novoId, agora))
  {
  }

  /** A new workout counts as not started. */
  lemma NovoNasEstatisticas(ts: seq<Treino>, dados: DadosTreino, usuario: Option<UserId>, novoId: string, agora: Timestamp)
    ensures var antes := EstatisticasTreinos(ts);
      EstatisticasTreinos(HandleNovoTreino(ts, dados, usuario, novoId, agora))
        == antes.(total := antes.total + 1, naoIniciados := antes.naoIniciados + 1)
  {
    var n := NovoTreino(dados, usuario, novoId, agora);
    FilterSnoc(ts, n, ComStatus(Concluido));
    FilterSnoc(ts, n, ComStatus(EmAndamento));
    FilterSnoc(ts, n, ComStatus(NaoIniciado));
  }

  /** `{ ...treino, ...dados, ultimaAtualizacao }`: the form data over the
      stored workout. A custom type absent from the form keeps the stored
      one; everything outside the form is kept. */
  function Mesclado(t: Treino, dados: DadosTreino, agora: Timestamp): (m: Treino)
    ensures DadosDe(m) == dados.(tipoPersonalizado := m.tipoPersonalizado)
    ensures m.tipoPersonalizado == if dados.tipoPersonalizado.Some? then dados.tipoPersonalizado else t.tipoPersonalizado
    ensures m.id == t.id && m.usuarioId == t.usuarioId && m.criadoEm == t.criadoEm && m.status == t.status
    ensures m.iniciadoEm == t.iniciadoEm && m.concluidoEm == t.concluidoEm
    ensures m.curtidas == t.curtidas && m.comentarios == t.comentarios
    ensures m.ultimaAtualizacao == Some(agora)
  {
    t.(nome := dados.nome, tipo := dados.tipo,
       tipoPersonalizado := if dados.tipoPersonalizado.Some? then dados.tipoPersonalizado else t.tipoPersonalizado,
       duracao := dados.duracao, nivel := dados.nivel, descricao := dados.descricao,
       intensidade := dados.intensidade, objetivo := dados.objetivo, exercicios := dados.exercicios,
       ultimaAtualizacao := Some(agora))
  }

  /** `handleEditarTreino`: nothing happens without a workout under edit or
      without a user; otherwise each entry with the edited workout's id
      becomes the merged record and the others stay. */
  function HandleEditarTreino(ts: seq<Treino>, editado: Option<Treino>, usuario: Option<UserId>,
                              dados: DadosTreino, agora: Timestamp): (r: seq<Treino>)
    ensures editado.None? || usuario.None? ==> r == ts
    ensures editado.Some? && usuario.Some? ==>
      && |r| == |ts|
      && (forall i :: 0 <= i < |ts| && ts[i].id == editado.value.id ==> r[i] == Mesclado(editado.value, dados, agora))
      && (forall i :: 0 <= i < |ts| && ts[i].id != editado.value.id ==> r[i] == ts[i])
  {
    if editado.None? || usuario.None? then ts
    else Substituir(ts, editado.value.id, Mesclado(editado.value, dados, agora))
  }

  /** Editing a workout of a list with unique ids changes no status count,
      keeps the ids unique, and stores the submitted form data, with the
      stored custom type when the form carries none. */
  lemma EditarMantemEstatisticas(ts: seq<Treino>, k: nat, usuario: UserId, dados: DadosTreino, agora: Timestamp)
    requires IdsUnicos(ts) && k < |ts|
    ensures EstatisticasTreinos(HandleEditarTreino(ts, Some(ts[k]), Some(usuario), dados, agora)) == EstatisticasTreinos(ts)
    ensures IdsUnicos(HandleEditarTreino(ts, Some(ts[k]), Some(usuario), dados, agora))
    ensures DadosDe(HandleEditarTreino(ts, Some(ts[k]), Some(usuario), dados, agora)[k])
      == if dados.tipoPersonalizado.Some? then dados else dados.(tipoPersonalizado := ts[k].tipoPersonalizado)
  {
    var m := Mesclado(ts[k], dados, agora);
    SubstituirUnico(ts, k, m, Concluido);
    SubstituirUnico(ts, k, m, EmAndamento);
    SubstituirUnico(ts, k, m, NaoIniciado);
  }

  function OutroId(id: string): Treino -> bool {
    (t: Treino) => t.id != id
  }

  /** `handleExcluirTreino`: every entry with the workout's id goes, the
      others stay in their order. */
  function HandleExcluirTreino(ts: seq<Treino>, treino: Treino): (r: seq<Treino>)
    ensures forall t :: t in r <==> t in ts && t.id != treino.id
    ensures forall t :: multiset(r)[t] == if t.id != treino.id then multiset(ts)[t] else 0
    ensures IsSubsequence(r, ts)
  {
    FilterIsSubsequence(ts, OutroId(treino.id));
    FilterMultisetAll(ts, OutroId(treino.id));
    Filter(ts, OutroId(treino.id))
  }

  /** With unique ids, deleting the workout at `k` is removing index `k`. */
  lemma ExcluirUnico(ts: seq<Treino>, k: nat)
    requires IdsUnicos(ts) && k < |ts|
    ensures HandleExcluirTreino(ts, ts[k]) == RemoveAt(ts, k)
  {
    forall j | 0 <= j < |ts| && j != k ensures OutroId(ts[k].id)(ts[j]) {
      assert ts[j].id != ts[k].id;
    }
    FilterRejectsOne(ts, k, OutroId(ts[k].id));
  }
}
