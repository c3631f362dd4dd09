/** The profile editor of project/src/components/EditarPerfil.tsx: the
    initial `formData` read from the signed-in user, and the modality
    checkboxes, which add a modality or remove every occurrence of it. */
module EditarPerfil {
  import opened Wrappers
  import opened Seqs

  /** The optional profile of a user; an absent property is `None`. */
  datatype Perfil = Perfil(
    bio: Option<string>,
    instagram: Option<string>,
    twitter: Option<string>,
    facebook: Option<string>,
    whatsapp: Option<string>,
    cidade: Option<string>,
    estado: Option<string>,
    academia: Option<string>,
    modalidades: Option<seq<string>>,
    outraModalidade: Option<string>,
    avatar: Option<string>)

  datatype Usuario = Usuario(id: string, nome: string, perfil: Option<Perfil>)

  datatype FormData = FormData(
    nome: string,
    bio: string,
    instagram: string,
    twitter: string,
    facebook: string,
    whatsapp: string,
    cidade: string,
    estado: string,
    academia: string,
    modalidades: seq<string>,
    outraModalidade: string,
    avatar: string)

  /** `x || ''` on an optional string (an empty string is falsy, which gives
      the same ''). */
  function OuVazio(x: Option<string>): (r: string)
    ensures x.Some? ==> r == x.value
    ensures x.None? ==> r == ""
  {
    if x.Some? then x.value else ""
  }

  /** A property of the profile, or `None` without a profile. */
  function DoPerfil(u: Option<Usuario>, campo: Perfil -> Option<string>): Option<string> {
    if u.Some? && u.value.perfil.Some? then campo(u.value.perfil.value) else None
  }

  /** The initial `formData`: each field from the user or the profile, and ''
      (or no modalities) when the user, the profile or the property is
      missing. */
  function FormularioInicial(u: Option<Usuario>): (f: FormData)
    ensures f.nome == (if u.Some? then u.value.nome else "")
    ensures u.None? || u.value.perfil.None? ==>
      && f.bio == "" && f.instagram == "" && f.twitter == "" && f.facebook == "" && f.whatsapp == ""
      && f.cidade == "" && f.estado == "" && f.academia == "" && f.modalidades == []
      && f.outraModalidade == "" && f.avatar == ""
    ensures u.Some? && u.value.perfil.Some? ==>
      var p := u.value.perfil.value;
      && f.bio == OuVazio(p.bio) && f.instagram == OuVazio(p.instagram) && f.twitter == OuVazio(p.twitter)
      && f.facebook == OuVazio(p.facebook) && f.whatsapp == OuVazio(p.whatsapp) && f.cidade == OuVazio(p.cidade)
      && f.estado == OuVazio(p.estado) && f.academia == OuVazio(p.academia)
      && f.modalidades == (if p.modalidades.Some? then p.modalidades.value else [])
      && f.outraModalidade == OuVazio(p.outraModalidade) && f.avatar == OuVazio(p.avatar)
  {
    var modalidades := if u.Some? && u.value.perfil.Some? && u.value.perfil.value.modalidades.Some?
                       then u.value.perfil.value.modalidades.value else [];
    FormData(
      if u.Some? then u.value.nome else "",
      OuVazio(DoPerfil(u, (p: Perfil) => p.bio)),
      OuVazio(DoPerfil(u, (p: Perfil) => p.instagram)),
      OuVazio(DoPerfil(u, (p: Perfil) => p.twitter)),
      OuVazio(DoPerfil(u, (p: Perfil) => p.facebook)),
      OuVazio(DoPerfil(u, (p: Perfil) => p.whatsapp)),
      OuVazio(DoPerfil(u, (p: Perfil) => p.cidade)),
      OuVazio(DoPerfil(u, (p: Perfil) => p.estado)),
      OuVazio(DoPerfil(u, (p: Perfil) => p.academia)),
      modalidades,
      OuVazio(DoPerfil(u, (p: Perfil) => p.outraModalidade)),
      OuVazio(DoPerfil(u, (p: Perfil) => p.avatar)))
  }

  function Diferente(m: string): string -> bool {
    (x: string) => x != m
  }

  /** The new modality list: a checked modality loses every occurrence and
      the others keep their order; an unchecked one goes at the end. */
  function AlternarModalidade(ms: seq<string>, m: string): (r: seq<string>)
    ensures m in ms ==> m !in r && (forall x :: x in r <==> x in ms && x != m) && IsSubsequence(r, ms)
    ensures m in ms ==> multiset(r) == multiset(ms)[m := 0]
    ensures m !in ms ==> r == ms + [m]
  {
    if m in ms then
      FilterIsSubsequence(ms, Diferente(m));
      FilterMultisetAll(ms, Diferente(m));
      assert multiset(Filter(ms, Diferente(m))) == multiset(ms)[m := 0];
      Filter(ms, Diferente(m))
    else ms + [m]
  }

  /** `handleModalidadeChange`: only the modality list changes. */
  function HandleModalidadeChange(f: FormData, m: string): (r: FormData)
    ensures r.modalidades == AlternarModalidade(f.modalidades, m)
    ensures r == f.(modalidades := r.modalidades)
  {
    f.(modalidades := AlternarModalidade(f.modalidades, m))
  }

  /** Checking and unchecking a modality that was not there gives back the
      original form. */
  lemma AlternarDuasVezesAusente(f: FormData, m: string)
    requires m !in f.modalidades
    ensures HandleModalidadeChange(HandleModalidadeChange(f, m), m) == f
  {
    var ms := f.modalidades;
    FilterSnoc(ms, m, Diferente(m));
    forall i | 0 <= i < |ms| ensures Diferente(m)(ms[i]) {
      assert ms[i] in ms;
    }
    FilterAll(ms, Diferente(m));
  }

  /** Unchecking and checking again a modality that was there leaves it once,
      at the end, after the other modalities in their order. */
  lemma AlternarDuasVezesPresente(f: FormData, m: string)
    requires m in f.modalidades
    ensures HandleModalidadeChange(HandleModalidadeChange(f, m), m).modalidades
      == Filter(f.modalidades, Diferente(m)) + [m]
  {
  }

  /** The 'Qual modalidade?' input is shown exactly when 'Outro' is checked. */
  predicate OutroVisivel(f: FormData) {
    "Outro" in f.modalidades
  }

  /** Toggling 'Outro' shows or hides that input; toggling any other
      modality leaves it as it was. */
  lemma OutroAlternaCampo(f: FormData, m: string)
    ensures OutroVisivel(HandleModalidadeChange(f, m)) == if m == "Outro" then !OutroVisivel(f) else OutroVisivel(f)
  {
  }
}
