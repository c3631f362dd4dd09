/** The interaction ledger of project/src/services/interacoes.ts: a map from
    activity id to its likes (a list of user ids) and its comments. Every
    operation, reads included, first materialises an empty record for an
    unknown activity (`garantirAtividade`). The map `dadosDB` is the state of
    an `InteractionLedger` object; `localStorage` is left out. */
module Interacoes {
  import opened Seqs
  import opened Wrappers

  type UserId = string
  type ActivityId = string
  type Timestamp = int

  datatype Comentario = Comentario(
    id: string,
    usuarioId: UserId,
    nomeUsuario: string,
    avatarUsuario: Option<string>,
    texto: string,
    criadoEm: Timestamp)

  datatype Interacao = Interacao(curtidas: seq<UserId>, comentarios: seq<Comentario>)

  const Vazia := Interacao([], [])

  const RemoverMsg := "Comentário não encontrado ou você não tem permissão para removê-lo"

  /** The record of `id`, reading a missing one as empty. */
  function InteracaoDe(m: map<ActivityId, Interacao>, id: ActivityId): Interacao {
    if id in m then m[id] else Vazia
  }

  /** The map after `garantirAtividade(id)`: an empty record is added
      exactly when `id` is missing, and nothing else changes. */
  function ComAtividade(m: map<ActivityId, Interacao>, id: ActivityId): (r: map<ActivityId, Interacao>)
    ensures id in r && r[id] == InteracaoDe(m, id)
    ensures r.Keys == m.Keys + {id}
    ensures forall k :: k in m ==> r[k] == m[k]
    ensures id in m ==> r == m
  {
    if id in m then m else m[id := Vazia]
  }

  /** No user id occurs twice. */
  ghost predicate SemRepeticao(l: seq<UserId>) {
    forall i, j :: 0 <= i < j < |l| ==> l[i] != l[j]
  }

  /** The like list after `alternarCurtida`: `push` when the user is absent,
      `splice` of the first occurrence otherwise. */
  function AlternarMembro(l: seq<UserId>, u: UserId): (r: seq<UserId>)
    ensures u !in l ==> r == l + [u] && u in r
    ensures u in l ==> |r| == |l| - 1 && multiset(r) == multiset(l) - multiset{u}
  {
    var i := IndexOf(l, u);
    if i == -1 then l + [u]
    else
      assert l == l[..i] + [l[i]] + l[i + 1..];
      RemoveAt(l, i)
  }

  /** On a duplicate-free like list the toggle flips membership, keeps the
      list duplicate-free, and changes the count by exactly one. */
  lemma {:induction false} AlternarSemRepeticao(l: seq<UserId>, u: UserId)
    requires SemRepeticao(l)
    ensures SemRepeticao(AlternarMembro(l, u))
    ensures u in AlternarMembro(l, u) <==> u !in l
    ensures |AlternarMembro(l, u)| == if u in l then |l| - 1 else |l| + 1
  {
    var r := AlternarMembro(l, u);
    var i := IndexOf(l, u);
    if i == -1 {
      forall a, b | 0 <= a < b < |r| ensures r[a] != r[b] {
        if b == |l| {
          assert r[a] == l[a] && l[a] in l;
        } else {
          assert r[a] == l[a] && r[b] == l[b];
        }
      }
    } else {
      forall a, b | 0 <= a < b < |r| ensures r[a] != r[b] {
        assert r[a] == l[if a < i then a else a + 1];
        assert r[b] == l[if b < i then b else b + 1];
      }
    }
  }

  /** Toggling twice with a user who had not liked restores the list exactly. */
  lemma AlternarDuasVezesAusente(l: seq<UserId>, u: UserId)
    requires u !in l
    ensures AlternarMembro(AlternarMembro(l, u), u) == l
  {
    var l1 := l + [u];
    assert IndexOf(l1, u) == |l|;
    assert l1[..|l|] == l;
  }

  /** Toggling twice with a user who had liked, on a duplicate-free list,
      restores membership and the count; the user moves to the end. */
  lemma AlternarDuasVezesPresente(l: seq<UserId>, u: UserId)
    requires SemRepeticao(l) && u in l
    ensures multiset(AlternarMembro(AlternarMembro(l, u), u)) == multiset(l)
    ensures AlternarMembro(AlternarMembro(l, u), u) == AlternarMembro(l, u) + [u]
  {
    AlternarSemRepeticao(l, u);
  }

  /** The comment test of `removerComentario`: same id and same author. */
  function MesmoIdEAutor(comentarioId: string, usuarioId: UserId): Comentario -> bool {
    (c: Comentario) => c.id == comentarioId && c.usuarioId == usuarioId
  }

  /** When every comment carrying `comentarioId` was written by someone
      else, nothing matches, so the removal fails. */
  lemma RemocaoPorOutroFalha(cs: seq<Comentario>, comentarioId: string, usuarioId: UserId)
    requires forall c :: c in cs && c.id == comentarioId ==> c.usuarioId != usuarioId
    ensures FindIndex(cs, MesmoIdEAutor(comentarioId, usuarioId)) == -1
  {
    forall k | 0 <= k < |cs| ensures !MesmoIdEAutor(comentarioId, usuarioId)(cs[k]) {
      assert cs[k] in cs;
    }
  }

  /** The ledger: `dadosDB`. */
  class InteractionLedger {
    var dados: map<ActivityId, Interacao>

    /** Every like list is free of duplicates. */
    ghost predicate Valid()
      reads this
    {
      forall id :: id in dados ==> SemRepeticao(dados[id].curtidas)
    }

    constructor ()
      ensures dados == map[]
      ensures Valid()
    {
      dados := map[];
    }

    /** `garantirAtividade`. */
    method GarantirAtividade(atividadeId: ActivityId)
      modifies this
      ensures dados == ComAtividade(old(dados), atividadeId)
      ensures old(Valid()) ==> Valid()
    {
      if atividadeId !in dados {
        dados := dados[atividadeId := Vazia];
      }
    }

    /** `alternarCurtida`: toggle the user in the like list and report
        whether they like it now and the new length of the persisted list. */
    method AlternarCurtida(atividadeId: ActivityId, usuarioId: UserId) returns (curtido: bool, totalCurtidas: int)
      modifies this
      ensures var antes := InteracaoDe(old(dados), atividadeId);
        && curtido == (usuarioId !in antes.curtidas)
        && dados == old(dados)[atividadeId := antes.(curtidas := AlternarMembro(antes.curtidas, usuarioId))]
        && totalCurtidas == |dados[atividadeId].curtidas|
      ensures old(Valid()) ==> Valid()
    {
      GarantirAtividade(atividadeId);
      var interacao := dados[atividadeId];
      var index := IndexOf(interacao.curtidas, usuarioId);
      if index == -1 {
        interacao := interacao.(curtidas := interacao.curtidas + [usuarioId]);
      } else {
        interacao := interacao.(curtidas := RemoveAt(interacao.curtidas, index));
      }
      dados := dados[atividadeId := interacao];
      curtido := index == -1;
      totalCurtidas := |interacao.curtidas|;
      if old(Valid()) {
        AlternarSemRepeticao(old(InteracaoDe(dados, atividadeId)).curtidas, usuarioId);
      }
    }

    /** `verificarCurtida`: membership in the like list (after materialising). */
    method VerificarCurtida(atividadeId: ActivityId, usuarioId: UserId) returns (r: bool)
      modifies this
      ensures dados == ComAtividade(old(dados), atividadeId)
      ensures r == (usuarioId in InteracaoDe(old(dados), atividadeId).curtidas)
      ensures old(Valid()) ==> Valid()
    {
      GarantirAtividade(atividadeId);
      r := usuarioId in dados[atividadeId].curtidas;
    }

    /** `obterTotalCurtidas`: the length of the like list (after materialising). */
    method ObterTotalCurtidas(atividadeId: ActivityId) returns (r: int)
      modifies this
      ensures dados == ComAtividade(old(dados), atividadeId)
      ensures r == |InteracaoDe(old(dados), atividadeId).curtidas|
      ensures old(Valid()) ==> Valid()
    {
      GarantirAtividade(atividadeId);
      r := |dados[atividadeId].curtidas|;
    }

    /** `adicionarComentario`: append one comment with the given author data
        and text (no emptiness check); `novoId` and `agora` stand for the
        random id and the clock. */
    method AdicionarComentario(atividadeId: ActivityId, usuarioId: UserId, texto: string, nomeUsuario: string,
                               avatarUsuario: Option<string>, novoId: string, agora: Timestamp)
      returns (c: Comentario)
      modifies this
      ensures c == Comentario(novoId, usuarioId, nomeUsuario, avatarUsuario, texto, agora)
      ensures var antes := InteracaoDe(old(dados), atividadeId);
        dados == old(dados)[atividadeId := antes.(comentarios := antes.comentarios + [c])]
      ensures old(Valid()) ==> Valid()
    {
      GarantirAtividade(atividadeId);
      var interacao := dados[atividadeId];
      c := Comentario(novoId, usuarioId, nomeUsuario, avatarUsuario, texto, agora);
      interacao := interacao.(comentarios := interacao.comentarios + [c]);
      dados := dados[atividadeId := interacao];
    }

    /** `removerComentario`: remove the first comment with both the given id
        and the given author; one combined error otherwise (the empty record
        stays materialised). */
    method RemoverComentario(atividadeId: ActivityId, comentarioId: string, usuarioId: UserId) returns (r: Outcome<string>)
      modifies this
      ensures var antes := InteracaoDe(old(dados), atividadeId);
        var k := FindIndex(antes.comentarios, MesmoIdEAutor(comentarioId, usuarioId));
        && (k == -1 ==> r == Fail(RemoverMsg) && dados == ComAtividade(old(dados), atividadeId))
        && (k != -1 ==> r == Pass && dados == old(dados)[atividadeId := antes.(comentarios := RemoveAt(antes.comentarios, k))])
      ensures old(Valid()) ==> Valid()
    {
      GarantirAtividade(atividadeId);
      var interacao := dados[atividadeId];
      var index := FindIndex(interacao.comentarios, MesmoIdEAutor(comentarioId, usuarioId));
      if index == -1 {
        return Fail(RemoverMsg);
      }
      interacao := interacao.(comentarios := RemoveAt(interacao.comentarios, index));
      dados := dados[atividadeId := interacao];
      r := Pass;
    }

    /** `obterComentarios`: the comment list in insertion order. */
    method ObterComentarios(atividadeId: ActivityId) returns (r: seq<Comentario>)
      modifies this
      ensures dados == ComAtividade(old(dados), atividadeId)
      ensures r == InteracaoDe(old(dados), atividadeId).comentarios
      ensures old(Valid()) ==> Valid()
    {
      GarantirAtividade(atividadeId);
      r := dados[atividadeId].comentarios;
    }
  }

  /** What a caller can conclude from the contracts alone: a like and an
      unlike on a fresh activity, a comment that only its author may delete. */
  method CurtirEComentar() {
    var ledger := new InteractionLedger();
    var curtido, total := ledger.AlternarCurtida("post-1", "u1");
    assert curtido && total == 1;
    curtido, total := ledger.AlternarCurtida("post-1", "u1");
    assert !curtido && total == 0;
    var c := ledger.AdicionarComentario("post-1", "u1", "hello", "Ana", None, "c1", 5);
    var cs := ledger.ObterComentarios("post-1");
    assert cs[|cs| - 1].texto == "hello" && cs[|cs| - 1].usuarioId == "u1";
    var r := ledger.RemoverComentario("post-1", "c1", "u2");
    assert r == Fail(RemoverMsg);
    cs := ledger.ObterComentarios("post-1");
    assert c in cs;
  }
}
