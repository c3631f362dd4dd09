/** The post composer of project/src/components/CriarPost.tsx. Its React
    state (text, images, privacy, poll visibility, poll options) is one
    record, and every handler is a function from the old record to the new.
    The poll always has between two and four options. */
module CriarPost {
  import opened Wrappers
  import opened Seqs
  import opened Strings

  type UserId = string
  type Timestamp = int

  datatype OpcaoEnquete = OpcaoEnquete(texto: string)

  datatype Formulario = Formulario(
    texto: string,
    imagens: seq<string>,
    isPrivado: bool,
    mostrarEnquete: bool,
    opcoesEnquete: seq<OpcaoEnquete>)

  const OpcaoVazia := OpcaoEnquete("")

  /** The state on mount and after each submit. */
  const Inicial := Formulario("", [], false, false, [OpcaoVazia, OpcaoVazia])

  /** The post handed to `onSubmit`. */
  datatype Post = Post(
    texto: string,
    imagens: seq<string>,
    isPrivado: bool,
    enquete: Option<seq<OpcaoEnquete>>,
    autorId: Option<UserId>,
    criadoEm: Timestamp)

  /** The poll has between two and four options. */
  predicate OpcoesNoLimite(f: Formulario) {
    2 <= |f.opcoesEnquete| <= 4
  }

  /** `adicionarOpcaoEnquete`: one empty option at the end, only while there
      are fewer than four. */
  function AdicionarOpcaoEnquete(f: Formulario): (r: Formulario)
    ensures |f.opcoesEnquete| < 4 ==>
      |r.opcoesEnquete| == |f.opcoesEnquete| + 1 && r.opcoesEnquete[..|f.opcoesEnquete|] == f.opcoesEnquete
      && r.opcoesEnquete[|f.opcoesEnquete|] == OpcaoVazia
    ensures |f.opcoesEnquete| >= 4 ==> r == f
    ensures r == f.(opcoesEnquete := r.opcoesEnquete)
  {
    if |f.opcoesEnquete| < 4 then f.(opcoesEnquete := f.opcoesEnquete + [OpcaoVazia]) else f
  }

  /** `removerOpcaoEnquete(index)`: drops exactly that option, only while there
      are more than two. */
  function RemoverOpcaoEnquete(f: Formulario, index: int): (r: Formulario)
    ensures |f.opcoesEnquete| > 2 && 0 <= index < |f.opcoesEnquete| ==>
      |r.opcoesEnquete| == |f.opcoesEnquete| - 1
      && forall j :: 0 <= j < |r.opcoesEnquete| ==> r.opcoesEnquete[j] == f.opcoesEnquete[if j < index then j else j + 1]
    ensures |f.opcoesEnquete| <= 2 || !(0 <= index < |f.opcoesEnquete|) ==> r == f
    ensures r == f.(opcoesEnquete := r.opcoesEnquete)
  {
    if |f.opcoesEnquete| > 2 then f.(opcoesEnquete := RemoveAt(f.opcoesEnquete, index)) else f
  }

  /** `atualizarOpcaoEnquete(index, texto)`: option `index` gets the text, the
      others stay. */
  function AtualizarOpcaoEnquete(f: Formulario, index: int, texto: string): (r: Formulario)
    ensures |r.opcoesEnquete| == |f.opcoesEnquete|
    ensures 0 <= index < |f.opcoesEnquete| ==> r.opcoesEnquete[index] == OpcaoEnquete(texto)
    ensures forall j :: 0 <= j < |f.opcoesEnquete| && j != index ==> r.opcoesEnquete[j] == f.opcoesEnquete[j]
    ensures r == f.(opcoesEnquete := r.opcoesEnquete)
  {
    var os := f.opcoesEnquete;
    f.(opcoesEnquete := seq(|os|, i requires 0 <= i < |os| => if i == index then OpcaoEnquete(texto) else os[i]))
  }

  /** `removerImagem(index)`: drops exactly that image. */
  function RemoverImagem(f: Formulario, index: int): (r: Formulario)
    ensures 0 <= index < |f.imagens| ==>
      |r.imagens| == |f.imagens| - 1
      && forall j :: 0 <= j < |r.imagens| ==> r.imagens[j] == f.imagens[if j < index then j else j + 1]
    ensures !(0 <= index < |f.imagens|) ==> r == f
    ensures r == f.(imagens := r.imagens)
  {
    f.(imagens := RemoveAt(f.imagens, index))
  }

  /** A finished `FileReader` load: its data URL goes at the end. */
  function ImagemCarregada(f: Formulario, dataUrl: string): (r: Formulario)
    ensures r.imagens == f.imagens + [dataUrl]
    ensures r == f.(imagens := r.imagens)
  {
    f.(imagens := f.imagens + [dataUrl])
  }

  /** The submit guard (also the button's `disabled`): some non-blank text or
      some image. */
  predicate PodeEnviar(f: Formulario)
    ensures PodeEnviar(f) <==> !AllWhitespace(f.texto) || |f.imagens| > 0
  {
    Trim(f.texto) != [] || |f.imagens| > 0
  }

  /** The post sent, if any, and the state afterwards. */
  datatype Envio = Envio(post: Option<Post>, depois: Formulario)

  /** `handleSubmit`: nothing on a blank post without images; otherwise the
      post carries the text as typed, the images, the privacy, the options
      only when the poll is shown, the author's id and the clock, and the form
      goes back to its initial state. */
  function HandleSubmit(f: Formulario, autorId: Option<UserId>, agora: Timestamp): (e: Envio)
    ensures !PodeEnviar(f) ==> e.post.None? && e.depois == f
    ensures PodeEnviar(f) ==> e.post.Some? && e.depois == Inicial
    ensures e.post.Some? ==>
      && e.post.value.texto == f.texto && e.post.value.imagens == f.imagens
      && e.post.value.isPrivado == f.isPrivado
      && e.post.value.autorId == autorId && e.post.value.criadoEm == agora
      && (e.post.value.enquete.Some? <==> f.mostrarEnquete)
      && (e.post.value.enquete.Some? ==> e.post.value.enquete.value == f.opcoesEnquete)
  {
    if !PodeEnviar(f) then Envio(None, f)
    else
      var enquete := if f.mostrarEnquete then Some(f.opcoesEnquete) else None;
      Envio(Some(Post(f.texto, f.imagens, f.isPrivado, enquete, autorId, agora)), Inicial)
  }

  /** What the user can do in the composer. */
  datatype Acao =
    | Digitar(texto: string)
    | AnexarImagem(dataUrl: string)
    | TirarImagem(index: int)
    | TrocarPrivacidade
    | TrocarEnquete
    | MaisUmaOpcao
    | MenosUmaOpcao(index: int)
    | EditarOpcao(index: int, texto: string)
    | Publicar(autorId: Option<UserId>, agora: Timestamp)

  function Passo(f: Formulario, a: Acao): Formulario {
    match a
    case Digitar(t) => f.(texto := t)
    case AnexarImagem(u) => ImagemCarregada(f, u)
    case TirarImagem(i) => RemoverImagem(f, i)
    case TrocarPrivacidade => f.(isPrivado := !f.isPrivado)
    case TrocarEnquete => f.(mostrarEnquete := !f.mostrarEnquete)
    case MaisUmaOpcao => AdicionarOpcaoEnquete(f)
    case MenosUmaOpcao(i) => RemoverOpcaoEnquete(f, i)
    case EditarOpcao(i, t) => AtualizarOpcaoEnquete(f, i, t)
    case Publicar(autor, agora) => HandleSubmit(f, autor, agora).depois
  }

  /** The state after a sequence of actions. */
  function Executar(f: Formulario, acoes: seq<Acao>): Formulario
    decreases |acoes|
  {
    if acoes == [] then f else Executar(Passo(f, acoes[0]), acoes[1..])
  }

  /** Every action keeps the poll between two and four options. */
  lemma PassoNoLimite(f: Formulario, a: Acao)
    requires OpcoesNoLimite(f)
    ensures OpcoesNoLimite(Passo(f, a))
  {
  }

  /** From any state within the bounds, every run of actions stays within
      them. */
  lemma {:induction false} ExecutarNoLimite(f: Formulario, acoes: seq<Acao>)
    requires OpcoesNoLimite(f)
    ensures OpcoesNoLimite(Executar(f, acoes))
    decreases |acoes|
  {
    if acoes != [] {
      PassoNoLimite(f, acoes[0]);
      ExecutarNoLimite(Passo(f, acoes[0]), acoes[1..]);
    }
  }

  /** Starting from the initial two options, the poll never has fewer than
      two or more than four. */
  lemma SempreNoLimite(acoes: seq<Acao>)
    ensures 2 <= |Executar(Inicial, acoes).opcoesEnquete| <= 4
  {
    ExecutarNoLimite(Inicial, acoes);
  }
}
