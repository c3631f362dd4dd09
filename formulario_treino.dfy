/** The workout form of project/src/components/FormularioTreino.tsx: the
    initial `dados`, the exercise list editor, and the update of one field of
    one exercise, which copies the array and assigns one slot of the copy. */
module FormularioTreino {
  import opened Wrappers
  import opened Seqs
  import opened Tipos

  /** `DadosTreino`. `tipoPersonalizado` is `None` when the property is absent. */
  datatype DadosTreino = DadosTreino(
    nome: string,
    tipo: TipoTreino,
    tipoPersonalizado: Option<string>,
    duracao: int,
    nivel: string,
    descricao: string,
    intensidade: Intensidade,
    objetivo: string,
    exercicios: seq<Exercicio>)

  /** The blank form. */
  const DadosEmBranco := DadosTreino("", Forca, Some(""), 60, "iniciante", "", Media, "", [])

  /** The initial `dados`: the workout handed in for editing, or else a form
      with an empty name, type 'forca', 60 minutes, level 'iniciante',
      medium intensity and no exercises. */
  function DadosIniciais(treinoInicial: Option<DadosTreino>): (d: DadosTreino)
    ensures treinoInicial.Some? ==> d == treinoInicial.value
    ensures treinoInicial.None? ==>
      && d.nome == "" && d.tipo == Forca && d.tipoPersonalizado == Some("") && d.duracao == 60
      && d.nivel == "iniciante" && d.descricao == "" && d.intensidade == Media && d.objetivo == ""
      && d.exercicios == []
  {
    if treinoInicial.Some? then treinoInicial.value else DadosEmBranco
  }

  /** The exercise `adicionarExercicio` appends (it has no weight). */
  const ExercicioNovo := Exercicio("", 3, 12, None, 60, Some(""))

  /** `adicionarExercicio`: one new exercise at the end, nothing else changes. */
  function AdicionarExercicio(d: DadosTreino): (r: DadosTreino)
    ensures |r.exercicios| == |d.exercicios| + 1
    ensures r.exercicios[..|d.exercicios|] == d.exercicios
    ensures r.exercicios[|d.exercicios|] == ExercicioNovo
    ensures r == d.(exercicios := r.exercicios)
  {
    d.(exercicios := d.exercicios + [ExercicioNovo])
  }

  /** `removerExercicio(index)`: exactly the exercise at `index` goes, the
      others keep their order; an index outside the list changes nothing. */
  function RemoverExercicio(d: DadosTreino, index: int): (r: DadosTreino)
    ensures 0 <= index < |d.exercicios| ==> |r.exercicios| == |d.exercicios| - 1
    ensures 0 <= index < |d.exercicios| ==>
      forall j :: 0 <= j < |r.exercicios| ==> r.exercicios[j] == d.exercicios[if j < index then j else j + 1]
    ensures !(0 <= index < |d.exercicios|) ==> r == d
    ensures r == d.(exercicios := r.exercicios)
  {
    d.(exercicios := RemoveAt(d.exercicios, index))
  }

  /** Removing the exercise just added gives back the form as it was. */
  lemma RemoverDesfazAdicionar(d: DadosTreino)
    ensures RemoverExercicio(AdicionarExercicio(d), |d.exercicios|) == d
  {
    var r := RemoverExercicio(AdicionarExercicio(d), |d.exercicios|);
    assert r.exercicios == d.exercicios;
  }

  /** One field edit of an exercise, with the value as entered (`Number(...)`
      already applied to the numeric inputs). */
  datatype Campo =
    | Nome(nome: string)
    | Series(series: int)
    | Repeticoes(repeticoes: int)
    | Peso(peso: real)
    | Descanso(descanso: int)
    | Observacoes(observacoes: string)

  /** The property name an edit writes. */
  function Chave(c: Campo): string {
    match c
    case Nome(_) => "nome"
    case Series(_) => "series"
    case Repeticoes(_) => "repeticoes"
    case Peso(_) => "peso"
    case Descanso(_) => "descanso"
    case Observacoes(_) => "observacoes"
  }

  /** The property names on which two exercises differ. */
  function Diferencas(e: Exercicio, f: Exercicio): (r: set<string>)
    ensures r == {} <==> e == f
  {
    (if e.nome != f.nome then {"nome"} else {})
    + (if e.series != f.series then {"series"} else {})
    + (if e.repeticoes != f.repeticoes then {"repeticoes"} else {})
    + (if e.peso != f.peso then {"peso"} else {})
    + (if e.descanso != f.descanso then {"descanso"} else {})
    + (if e.observacoes != f.observacoes then {"observacoes"} else {})
  }

  /** `e` holds the value the edit writes. */
  predicate Contem(e: Exercicio, c: Campo) {
    match c
    case Nome(v) => e.nome == v
    case Series(v) => e.series == v
    case Repeticoes(v) => e.repeticoes == v
    case Peso(v) => e.peso == Some(v)
    case Descanso(v) => e.descanso == v
    case Observacoes(v) => e.observacoes == Some(v)
  }

  /** `{ ...exercicio, campo: valor }`: the edited field takes the new value
      and no other field changes. */
  function ComCampo(e: Exercicio, c: Campo): (r: Exercicio)
    ensures Contem(r, c)
    ensures Diferencas(e, r) <= {Chave(c)}
  {
    match c
    case Nome(v) => e.(nome := v)
    case Series(v) => e.(series := v)
    case Repeticoes(v) => e.(repeticoes := v)
    case Peso(v) => e.(peso := Some(v))
    case Descanso(v) => e.(descanso := v)
    case Observacoes(v) => e.(observacoes := Some(v))
  }

  /** The `onChange` of an exercise input: copy the list, overwrite slot
      `index` of the copy with the edited exercise, and store the copy. The
      index is always one the list has, since the inputs are rendered from
      it. */
  method AtualizarExercicio(d: DadosTreino, index: int, campo: Campo) returns (r: DadosTreino)
    requires 0 <= index < |d.exercicios|
    ensures |r.exercicios| == |d.exercicios|
    ensures Contem(r.exercicios[index], campo)
    ensures Diferencas(d.exercicios[index], r.exercicios[index]) <= {Chave(campo)}
    ensures forall j :: 0 <= j < |d.exercicios| && j != index ==> r.exercicios[j] == d.exercicios[j]
    ensures r == d.(exercicios := r.exercicios)
  {
    var xs := d.exercicios;
    var novos := new Exercicio[|xs|](j requires 0 <= j < |xs| => xs[j]);
    novos[index] := ComCampo(novos[index], campo);
    r := d.(exercicios := novos[..]);
  }
}
