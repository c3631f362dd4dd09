/** The follow ledger of project/src/services/relacionamentos.ts: a list of
    directed follow edges kept next to a per-user table of denormalised
    counters `{seguidores, seguindo}`. The store (`dadosDB`) is the state of
    a `FollowLedger` object; reloading it from `localStorage` is left out. */
module Relacionamentos {
  import opened Seqs
  import opened Wrappers

  type UserId = string
  type Timestamp = int

  /** One follow edge: `seguidorId` follows `seguidoId` since `criadoEm`. */
  datatype Relacionamento = Relacionamento(seguidorId: UserId, seguidoId: UserId, criadoEm: Timestamp)

  /** The counter entry of one user. JavaScript numbers, so a loaded table
      may hold anything; the ledger's invariant keeps them equal to edge counts. */
  datatype Contadores = Contadores(seguidores: int, seguindo: int)

  const Zero := Contadores(0, 0)

  const JaSegueMsg := "Você já segue este usuário"
  const NaoSegueMsg := "Você não segue este usuário"

  /** The edge test shared by `some` and `findIndex`. */
  function Liga(seguidorId: UserId, seguidoId: UserId): Relacionamento -> bool {
    (r: Relacionamento) => r.seguidorId == seguidorId && r.seguidoId == seguidoId
  }

  /** Edges that end at `u`, i.e. the follows `u` receives. */
  function ChegaEm(u: UserId): Relacionamento -> bool {
    (r: Relacionamento) => r.seguidoId == u
  }

  /** Edges that start at `u`, i.e. the follows `u` makes. */
  function SaiDe(u: UserId): Relacionamento -> bool {
    (r: Relacionamento) => r.seguidorId == u
  }

  /** `relacionamentos.some(r => r.seguidorId === a && r.seguidoId === b)`,
      which holds exactly when `findIndex` with the same test finds an edge. */
  predicate JaSegue(rs: seq<Relacionamento>, a: UserId, b: UserId)
    ensures JaSegue(rs, a, b) <==> FindIndex(rs, Liga(a, b)) != -1
  {
    exists i :: 0 <= i < |rs| && rs[i].seguidorId == a && rs[i].seguidoId == b
  }

  /** No ordered pair occurs twice in the edge list. */
  ghost predicate SemDuplicatas(rs: seq<Relacionamento>) {
    forall i, j :: 0 <= i < j < |rs| ==> !(rs[i].seguidorId == rs[j].seguidorId && rs[i].seguidoId == rs[j].seguidoId)
  }

  /** The followers of `u`, in edge insertion order (`obterSeguidores`). */
  function SeguidoresDe(rs: seq<Relacionamento>, u: UserId): seq<UserId> {
    Map(Filter(rs, ChegaEm(u)), (r: Relacionamento) => r.seguidorId)
  }

  /** The users `u` follows, in edge insertion order (`obterSeguindo`). */
  function SeguindoDe(rs: seq<Relacionamento>, u: UserId): seq<UserId> {
    Map(Filter(rs, SaiDe(u)), (r: Relacionamento) => r.seguidoId)
  }

  /** The counters that the edge list itself determines for `u`. */
  ghost function Contagem(rs: seq<Relacionamento>, u: UserId): Contadores {
    Contadores(|Filter(rs, ChegaEm(u))|, |Filter(rs, SaiDe(u))|)
  }

  /** `contadores[u] || { seguidores: 0, seguindo: 0 }`. */
  function ContadorDe(m: map<UserId, Contadores>, u: UserId): Contadores {
    if u in m then m[u] else Zero
  }

  /** The counter of `u` after `atualizarContadores(a, b, inc)`: `seguindo`
      moves with `a`, `seguidores` with `b` (both, when `a == b`). */
  function Ajustado(m: map<UserId, Contadores>, a: UserId, b: UserId, inc: int, u: UserId): Contadores {
    var c := ContadorDe(m, u);
    Contadores(c.seguidores + (if u == b then inc else 0), c.seguindo + (if u == a then inc else 0))
  }

  /** Every user's followers list names exactly the users with an edge to them. */
  lemma SeguidoresExatos(rs: seq<Relacionamento>, u: UserId, v: UserId)
    ensures v in SeguidoresDe(rs, u) <==> JaSegue(rs, v, u)
  {
    var fi := Filter(rs, ChegaEm(u));
    if v in SeguidoresDe(rs, u) {
      var k :| 0 <= k < |fi| && fi[k].seguidorId == v;
      assert fi[k] in rs;
    }
    if JaSegue(rs, v, u) {
      var i :| 0 <= i < |rs| && rs[i].seguidorId == v && rs[i].seguidoId == u;
      assert rs[i] in fi;
      var k :| 0 <= k < |fi| && fi[k] == rs[i];
      assert SeguidoresDe(rs, u)[k] == v;
    }
  }

  /** Every user's following list names exactly the users they have an edge to. */
  lemma SeguindoExatos(rs: seq<Relacionamento>, u: UserId, v: UserId)
    ensures v in SeguindoDe(rs, u) <==> JaSegue(rs, u, v)
  {
    var fo := Filter(rs, SaiDe(u));
    if v in SeguindoDe(rs, u) {
      var k :| 0 <= k < |fo| && fo[k].seguidoId == v;
      assert fo[k] in rs;
    }
    if JaSegue(rs, u, v) {
      var i :| 0 <= i < |rs| && rs[i].seguidorId == u && rs[i].seguidoId == v;
      assert rs[i] in fo;
      var k :| 0 <= k < |fo| && fo[k] == rs[i];
      assert SeguindoDe(rs, u)[k] == v;
    }
  }

  /** Appending an edge raises the in-count of its target and the out-count
      of its source by one and leaves every other count alone. */
  lemma ContagemAposInserir(rs: seq<Relacionamento>, e: Relacionamento, u: UserId)
    ensures Contagem(rs + [e], u) == Ajustado(map[u := Contagem(rs, u)], e.seguidorId, e.seguidoId, 1, u)
  {
    FilterSnoc(rs, e, ChegaEm(u));
    FilterSnoc(rs, e, SaiDe(u));
  }

  /** Removing edge `i` lowers the counts of its two endpoints by one. */
  lemma ContagemAposRemover(rs: seq<Relacionamento>, i: nat, u: UserId)
    requires i < |rs|
    ensures Contagem(RemoveAt(rs, i), u) == Ajustado(map[u := Contagem(rs, u)], rs[i].seguidorId, rs[i].seguidoId, -1, u)
  {
    FilterRemoveAt(rs, i, ChegaEm(u));
    FilterRemoveAt(rs, i, SaiDe(u));
  }

  /** Appending an edge for a pair not yet present keeps the list free of duplicates. */
  lemma InserirSemDuplicatas(rs: seq<Relacionamento>, e: Relacionamento)
    requires SemDuplicatas(rs) && !JaSegue(rs, e.seguidorId, e.seguidoId)
    ensures SemDuplicatas(rs + [e])
  {
    var s := rs + [e];
    forall i, j | 0 <= i < j < |s|
      ensures !(s[i].seguidorId == s[j].seguidorId && s[i].seguidoId == s[j].seguidoId)
    {
      if j == |rs| {
        assert s[i] == rs[i];
      } else {
        assert s[i] == rs[i] && s[j] == rs[j];
      }
    }
  }

  /** Removing an edge keeps the list free of duplicates, and the removed
      pair is then absent. */
  lemma RemoverSemDuplicatas(rs: seq<Relacionamento>, k: nat)
    requires SemDuplicatas(rs) && k < |rs|
    ensures SemDuplicatas(RemoveAt(rs, k))
    ensures !JaSegue(RemoveAt(rs, k), rs[k].seguidorId, rs[k].seguidoId)
  {
    var s := RemoveAt(rs, k);
    forall i, j | 0 <= i < j < |s|
      ensures !(s[i].seguidorId == s[j].seguidorId && s[i].seguidoId == s[j].seguidoId)
    {
      assert s[i] == rs[if i < k then i else i + 1];
      assert s[j] == rs[if j < k then j else j + 1];
    }
  }

  /** The ledger: `dadosDB.relacionamentos` and `dadosDB.contadores`. */
  class FollowLedger {
    var relacionamentos: seq<Relacionamento>
    var contadores: map<UserId, Contadores>

    /** The ledger's invariant: no duplicate pair, and every user's counters
        equal the number of edges into and out of that user. */
    ghost predicate Valid()
      reads this
    {
      && SemDuplicatas(relacionamentos)
      && forall u :: ContadorDe(contadores, u) == Contagem(relacionamentos, u)
    }

    /** The empty store that `carregarDados` returns when nothing is saved. */
    constructor ()
      ensures relacionamentos == [] && contadores == map[]
      ensures Valid()
    {
      relacionamentos := [];
      contadores := map[];
    }

    /** `atualizarContadores`: create missing entries as `{0, 0}`, then add
        `incremento` to `seguindo` of the follower and `seguidores` of the
        followed user. */
    method AtualizarContadores(seguidorId: UserId, seguidoId: UserId, incremento: int)
      modifies this`contadores
      ensures contadores.Keys == old(contadores).Keys + {seguidorId, seguidoId}
      ensures forall u :: ContadorDe(contadores, u) == Ajustado(old(contadores), seguidorId, seguidoId, incremento, u)
    {
      if seguidorId !in contadores {
        contadores := contadores[seguidorId := Zero];
      }
      if seguidoId !in contadores {
        contadores := contadores[seguidoId := Zero];
      }
      var a := contadores[seguidorId];
      contadores := contadores[seguidorId := a.(seguindo := a.seguindo + incremento)];
      var b := contadores[seguidoId];
      contadores := contadores[seguidoId := b.(seguidores := b.seguidores + incremento)];
    }

    /** `seguirUsuario`. A pair already present is rejected and nothing
        changes; otherwise one edge is appended and both counters rise by one.
        Self-follow is not rejected. */
    method SeguirUsuario(seguidorId: UserId, seguidoId: UserId, agora: Timestamp) returns (r: Outcome<string>)
      modifies this
      ensures JaSegue(old(relacionamentos), seguidorId, seguidoId) ==>
        r == Fail(JaSegueMsg) && relacionamentos == old(relacionamentos) && contadores == old(contadores)
      ensures !JaSegue(old(relacionamentos), seguidorId, seguidoId) ==>
        && r == Pass
        && relacionamentos == old(relacionamentos) + [Relacionamento(seguidorId, seguidoId, agora)]
        && contadores.Keys == old(contadores).Keys + {seguidorId, seguidoId}
        && forall u :: ContadorDe(contadores, u) == Ajustado(old(contadores), seguidorId, seguidoId, 1, u)
      ensures old(Valid()) ==> Valid()
    {
      if JaSegue(relacionamentos, seguidorId, seguidoId) {
        return Fail(JaSegueMsg);
      }
      ghost var antes := relacionamentos;
      var e := Relacionamento(seguidorId, seguidoId, agora);
      relacionamentos := relacionamentos + [e];
      AtualizarContadores(seguidorId, seguidoId, 1);
      r := Pass;
      if old(Valid()) {
        InserirSemDuplicatas(antes, e);
        forall u ensures ContadorDe(contadores, u) == Contagem(relacionamentos, u) {
          ContagemAposInserir(antes, e, u);
        }
      }
    }

    /** `deixarDeSeguir`. A missing pair is rejected and nothing changes;
        otherwise the first matching edge is spliced out and both counters
        drop by one. */
    method DeixarDeSeguir(seguidorId: UserId, seguidoId: UserId) returns (r: Outcome<string>)
      modifies this
      ensures !JaSegue(old(relacionamentos), seguidorId, seguidoId) ==>
        r == Fail(NaoSegueMsg) && relacionamentos == old(relacionamentos) && contadores == old(contadores)
      ensures JaSegue(old(relacionamentos), seguidorId, seguidoId) ==>
        var k := FindIndex(old(relacionamentos), Liga(seguidorId, seguidoId));
        && r == Pass
        && 0 <= k
        && relacionamentos == RemoveAt(old(relacionamentos), k)
        && contadores.Keys == old(contadores).Keys + {seguidorId, seguidoId}
        && forall u :: ContadorDe(contadores, u) == Ajustado(old(contadores), seguidorId, seguidoId, -1, u)
      ensures old(Valid()) ==> Valid()
      ensures old(Valid()) ==> !JaSegue(relacionamentos, seguidorId, seguidoId)
    {
      var index := FindIndex(relacionamentos, Liga(seguidorId, seguidoId));
      if index == -1 {
        assert !JaSegue(relacionamentos, seguidorId, seguidoId);
        return Fail(NaoSegueMsg);
      }
      ghost var antes := relacionamentos;
      relacionamentos := RemoveAt(relacionamentos, index);
      AtualizarContadores(seguidorId, seguidoId, -1);
      r := Pass;
      if old(Valid()) {
        RemoverSemDuplicatas(antes, index);
        forall u ensures ContadorDe(contadores, u) == Contagem(relacionamentos, u) {
          ContagemAposRemover(antes, index, u);
        }
      }
    }

    /** `verificarSeSegue`: whether the edge exists. Reads only. */
    method VerificarSeSegue(seguidorId: UserId, seguidoId: UserId) returns (r: bool)
      ensures r <==> exists e :: e in relacionamentos && e.seguidorId == seguidorId && e.seguidoId == seguidoId
    {
      r := JaSegue(relacionamentos, seguidorId, seguidoId);
      if r {
        var i :| 0 <= i < |relacionamentos| && relacionamentos[i].seguidorId == seguidorId && relacionamentos[i].seguidoId == seguidoId;
        assert relacionamentos[i] in relacionamentos;
      }
    }

    /** `verificarSeguindo`: the same test as `verificarSeSegue` (the source
        only adds a simulated delay). */
    method VerificarSeguindo(seguidorId: UserId, seguidoId: UserId) returns (r: bool)
      ensures r <==> exists e :: e in relacionamentos && e.seguidorId == seguidorId && e.seguidoId == seguidoId
    {
      r := VerificarSeSegue(seguidorId, seguidoId);
    }

    /** `obterContadores`: the stored entry, or `{0, 0}` for a user without
        one. In a valid ledger these are the edge counts, hence non-negative. */
    method ObterContadores(usuarioId: UserId) returns (c: Contadores)
      ensures usuarioId in contadores ==> c == contadores[usuarioId]
      ensures usuarioId !in contadores ==> c == Zero
      ensures Valid() ==> c.seguidores == |SeguidoresDe(relacionamentos, usuarioId)|
      ensures Valid() ==> c.seguindo == |SeguindoDe(relacionamentos, usuarioId)|
      ensures Valid() ==> c.seguidores >= 0 && c.seguindo >= 0
    {
      c := ContadorDe(contadores, usuarioId);
    }

    /** `obterSeguidores`: the followers of `usuarioId`, in edge order; a
        user appears exactly when the edge exists, and in a valid ledger the
        list is as long as the stored counter. */
    method ObterSeguidores(usuarioId: UserId) returns (r: seq<UserId>)
      ensures |r| == |Filter(relacionamentos, ChegaEm(usuarioId))|
      ensures forall i :: 0 <= i < |r| ==> r[i] == Filter(relacionamentos, ChegaEm(usuarioId))[i].seguidorId
      ensures forall v :: v in r <==> JaSegue(relacionamentos, v, usuarioId)
      ensures Valid() ==> |r| == ContadorDe(contadores, usuarioId).seguidores
    {
      r := SeguidoresDe(relacionamentos, usuarioId);
      forall v ensures v in r <==> JaSegue(relacionamentos, v, usuarioId) {
        SeguidoresExatos(relacionamentos, usuarioId, v);
      }
    }

    /** `obterSeguindo`: the users `usuarioId` follows, in edge order. */
    method ObterSeguindo(usuarioId: UserId) returns (r: seq<UserId>)
      ensures |r| == |Filter(relacionamentos, SaiDe(usuarioId))|
      ensures forall i :: 0 <= i < |r| ==> r[i] == Filter(relacionamentos, SaiDe(usuarioId))[i].seguidoId
      ensures forall v :: v in r <==> JaSegue(relacionamentos, usuarioId, v)
      ensures Valid() ==> |r| == ContadorDe(contadores, usuarioId).seguindo
    {
      r := SeguindoDe(relacionamentos, usuarioId);
      forall v ensures v in r <==> JaSegue(relacionamentos, usuarioId, v) {
        SeguindoExatos(relacionamentos, usuarioId, v);
      }
    }
  }

  /** What a caller can conclude from the contracts alone: following from an
      empty store, a repeated follow, and an unfollow of a missing pair. */
  method SeguirDuasVezes() {
    var ledger := new FollowLedger();
    var r := ledger.SeguirUsuario("u1", "u2", 0);
    assert r == Pass;
    var c2 := ledger.ObterContadores("u2");
    var c1 := ledger.ObterContadores("u1");
    assert c2 == Contadores(1, 0) && c1 == Contadores(0, 1);
    r := ledger.SeguirUsuario("u1", "u2", 1);
    assert JaSegue(ledger.relacionamentos, "u1", "u2");
    assert r == Fail(JaSegueMsg);
    r := ledger.DeixarDeSeguir("u2", "u1");
    assert !JaSegue(ledger.relacionamentos, "u2", "u1");
    assert r == Fail(NaoSegueMsg);
    r := ledger.DeixarDeSeguir("u1", "u2");
    assert r == Pass;
    c2 := ledger.ObterContadores("u2");
    assert c2 == Contadores(0, 0);
  }
}
