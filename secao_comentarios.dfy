/** The comment section of project/src/components/SecaoComentarios.tsx: the
    window of visible comments, and the local copy of the comment list that
    the component keeps next to the interaction ledger and updates after
    each successful call to it. */
module SecaoComentarios {
  import opened Wrappers
  import opened Seqs
  import opened Strings
  import opened Interacoes

  /** The signed-in user as the section reads it: id, name and profile avatar. */
  datatype Autor = Autor(id: UserId, nome: string, avatar: Option<string>)

  /** `comentariosVisiveis`: everything when expanded or when there are at
      most two comments, otherwise the last two. */
  function ComentariosVisiveis(cs: seq<Comentario>, mostrarTodos: bool): (r: seq<Comentario>)
    ensures mostrarTodos || |cs| <= 2 ==> r == cs
    ensures !mostrarTodos && |cs| > 2 ==> |r| == 2 && r[0] == cs[|cs| - 2] && r[1] == cs[|cs| - 1]
    ensures |r| <= |cs| && r == cs[|cs| - |r|..]
  {
    if mostrarTodos || |cs| <= 2 then cs else cs[|cs| - 2..]
  }

  /** `temMaisComentarios`: the collapsed view hides some comment. */
  function TemMaisComentarios(cs: seq<Comentario>): (r: bool)
    ensures r <==> |ComentariosVisiveis(cs, false)| < |cs|
  {
    |cs| > 2
  }

  /** The 'Ver mais comentários' link shows exactly when some comment is
      hidden. */
  lemma VerMaisSeOculta(cs: seq<Comentario>, mostrarTodos: bool)
    ensures (!mostrarTodos && TemMaisComentarios(cs)) <==> |ComentariosVisiveis(cs, mostrarTodos)| < |cs|
  {
  }

  /** The submit guard: without a user or with a blank draft nothing is sent;
      otherwise the draft is sent trimmed. */
  function TextoAEnviar(usuario: Option<Autor>, rascunho: string): (r: Option<string>)
    ensures r.None? <==> usuario.None? || AllWhitespace(rascunho)
    ensures r.Some? ==>
      && r.value == Trim(rascunho) && r.value != []
      && !IsWhitespace(r.value[0]) && !IsWhitespace(r.value[|r.value| - 1])
  {
    if usuario.None? || Trim(rascunho) == [] then None else Some(Trim(rascunho))
  }

  /** The delete control is offered only on the viewer's own comments. */
  predicate PodeRemover(usuario: Option<Autor>, c: Comentario) {
    usuario.Some? && usuario.value.id == c.usuarioId
  }

  /** An offered delete always finds its comment in the ledger: the first
      entry with that id belongs to the viewer. */
  lemma PodeRemoverEncontra(cs: seq<Comentario>, k: nat, usuario: Option<Autor>)
    requires k < |cs| && PodeRemover(usuario, cs[k])
    ensures 0 <= FindIndex(cs, MesmoIdEAutor(cs[k].id, usuario.value.id)) <= k
  {
    assert MesmoIdEAutor(cs[k].id, usuario.value.id)(cs[k]);
  }

  /** No two comments share an id. */
  ghost predicate IdsUnicos(cs: seq<Comentario>) {
    forall i, j :: 0 <= i < j < |cs| ==> cs[i].id != cs[j].id
  }

  function OutroId(id: string): Comentario -> bool {
    (c: Comentario) => c.id != id
  }

  /** `handleSubmit`: when the guard passes, the comment goes to the ledger
      and the returned comment is appended to the local list, whose new
      length is reported. A local list that mirrored the ledger still does. */
  method HandleSubmit(ledger: InteractionLedger, atividadeId: ActivityId, usuario: Option<Autor>,
                      rascunho: string, local: seq<Comentario>, novoId: string, agora: Timestamp)
    returns (lista: seq<Comentario>, total: Option<int>)
    modifies ledger
    ensures TextoAEnviar(usuario, rascunho).None? ==> lista == local && total.None? && ledger.dados == old(ledger.dados)
    ensures TextoAEnviar(usuario, rascunho).Some? ==>
      var c := Comentario(novoId, usuario.value.id, usuario.value.nome, usuario.value.avatar,
                          TextoAEnviar(usuario, rascunho).value, agora);
      var antes := InteracaoDe(old(ledger.dados), atividadeId);
      && lista == local + [c] && total == Some(|lista|)
      && ledger.dados == old(ledger.dados)[atividadeId := antes.(comentarios := antes.comentarios + [c])]
    ensures local == InteracaoDe(old(ledger.dados), atividadeId).comentarios ==>
      lista == InteracaoDe(ledger.dados, atividadeId).comentarios
    ensures old(ledger.Valid()) ==> ledger.Valid()
  {
    var texto := TextoAEnviar(usuario, rascunho);
    if texto.None? {
      return local, None;
    }
    var u := usuario.value;
    var c := ledger.AdicionarComentario(atividadeId, u.id, texto.value, u.nome, u.avatar, novoId, agora);
    lista := local + [c];
    total := Some(|lista|);
  }

  /** `handleRemover`: without a user nothing happens; a removal the ledger
      refuses leaves the local list as it was (the error is shown); a removal
      it accepts drops every local comment with that id and reports the new
      length. With unique ids a local list that mirrored the ledger still
      does. */
  method HandleRemover(ledger: InteractionLedger, atividadeId: ActivityId, usuario: Option<Autor>,
                       comentarioId: string, local: seq<Comentario>)
    returns (lista: seq<Comentario>, total: Option<int>)
    modifies ledger
    ensures usuario.None? ==> lista == local && total.None? && ledger.dados == old(ledger.dados)
    ensures usuario.Some? ==>
      var antes := InteracaoDe(old(ledger.dados), atividadeId);
      var k := FindIndex(antes.comentarios, MesmoIdEAutor(comentarioId, usuario.value.id));
      && (k == -1 ==> lista == local && total.None? && ledger.dados == ComAtividade(old(ledger.dados), atividadeId))
      && (k != -1 ==>
            && lista == Filter(local, OutroId(comentarioId)) && total == Some(|lista|)
            && ledger.dados == old(ledger.dados)[atividadeId := antes.(comentarios := RemoveAt(antes.comentarios, k))])
    ensures total.Some? ==> forall c :: c in lista ==> c.id != comentarioId
    ensures IdsUnicos(local) && local == InteracaoDe(old(ledger.dados), atividadeId).comentarios ==>
      lista == InteracaoDe(ledger.dados, atividadeId).comentarios
    ensures old(ledger.Valid()) ==> ledger.Valid()
  {
    if usuario.None? {
      return local, None;
    }
    ghost var antes := InteracaoDe(ledger.dados, atividadeId).comentarios;
    var r := ledger.RemoverComentario(atividadeId, comentarioId, usuario.value.id);
    if r.Fail? {
      return local, None;
    }
    lista := Filter(local, OutroId(comentarioId));
    total := Some(|lista|);
    if IdsUnicos(local) && local == antes {
      var k := FindIndex(antes, MesmoIdEAutor(comentarioId, usuario.value.id));
      forall j | 0 <= j < |local| && j != k ensures OutroId(comentarioId)(local[j]) {
        assert local[j].id != local[k].id;
      }
      FilterRejectsOne(local, k, OutroId(comentarioId));
    }
  }
}
