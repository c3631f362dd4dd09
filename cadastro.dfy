/** The sign-up page of project/src/pages/Cadastro.tsx: `validarFormulario`,
    which fills an error dictionary field by field, and the decision
    `handleSubmit` takes once the sign-up call has answered. The login and
    the navigation are effects outside this model; the answer is a
    parameter, the three ways the service `cadastrar` can end are a
    datatype, and the decision is a value. */
module Cadastro {
  import opened Wrappers
  import opened Seqs
  import opened Strings

  const NomeObrigatorio := "Nome é obrigatório"
  const NomeCurto := "Nome deve ter pelo menos 3 caracteres"
  const EmailObrigatorio := "Email é obrigatório"
  const EmailInvalido := "Email inválido"
  const SenhaObrigatoria := "Senha é obrigatória"
  const SenhaCurta := "Senha deve ter pelo menos 8 caracteres"
  const SenhaFraca := "Senha deve conter letras maiúsculas, minúsculas e números"
  const SenhasDiferentes := "As senhas não coincidem"
  const RespostaInvalida := "Resposta inválida do servidor"
  const ErroGenerico := "Ocorreu um erro ao criar sua conta. Tente novamente."

  /** A character of the class `[^\s@]`. */
  predicate Comum(c: char) {
    !IsWhitespace(c) && c != '@'
  }

  /** A non-empty run of `[^\s@]`. */
  predicate Bloco(s: string) {
    s != [] && forall k :: 0 <= k < |s| ==> Comum(s[k])
  }

  /** The pattern `^[^\s@]+@[^\s@]+\.[^\s@]+$` read off directly: an `@` at
      `i` and a `.` at `j` split the string into three non-empty runs, so a
      matching string has at least five characters. */
  ghost predicate CasaEmail(s: string)
    ensures CasaEmail(s) ==> 5 <= |s| && '@' in s && '.' in s
  {
    exists i, j :: 0 <= i < j < |s| && s[i] == '@' && s[j] == '.'
      && Bloco(s[..i]) && Bloco(s[i + 1..j]) && Bloco(s[j + 1..])
  }

  /** The test as a scan: everything before the first `@` is a run, and the
      rest is a run with a `.` neither first nor last; an accepted string
      has at least five characters and neither starts nor ends with
      whitespace. */
  function EmailValido(s: string): (r: bool)
    ensures r ==> 5 <= |s| && !IsWhitespace(s[0]) && !IsWhitespace(s[|s| - 1])
  {
    var i := IndexOf(s, '@');
    0 < i && Bloco(s[..i]) && var d := s[i + 1..];
    Bloco(d) && exists j :: 0 < j < |d| - 1 && d[j] == '.'
  }

  /** Every string the scan accepts matches the pattern. */
  lemma EmailValidoCasa(s: string)
    requires EmailValido(s)
    ensures CasaEmail(s)
  {
    var i := IndexOf(s, '@');
    var d := s[i + 1..];
    var j :| 0 < j < |d| - 1 && d[j] == '.';
    var jj := i + 1 + j;
    assert s[i + 1..jj] == d[..j];
    assert s[jj + 1..] == d[j + 1..];
    assert Bloco(s[i + 1..jj]);
    assert Bloco(s[jj + 1..]);
    assert s[jj] == '.';
  }

  /** The first `@` of a string whose prefix before `i` has none. */
  lemma PrimeiraArroba(s: string, i: int)
    requires 0 <= i < |s| && s[i] == '@' && Bloco(s[..i])
    ensures IndexOf(s, '@') == i
  {
    forall k | 0 <= k < i ensures s[k] != '@' {
      assert s[..i][k] == s[k];
    }
    assert '@' !in s[..i];
  }

  /** A run followed by `.` and another run: a run with an inner `.`. */
  lemma RunComPonto(d: string, j: int)
    requires 0 <= j < |d| && d[j] == '.' && Bloco(d[..j]) && Bloco(d[j + 1..])
    ensures Bloco(d) && 0 < j < |d| - 1
  {
    forall k | 0 <= k < |d| ensures Comum(d[k]) {
      if k < j {
        assert d[k] == d[..j][k];
      } else if k > j {
        assert d[k] == d[j + 1..][k - j - 1];
      }
    }
  }

  /** An `@` at `i` and a `.` at `j` splitting the string into three runs
      make the scan accept it. */
  lemma CasaEmailEm(s: string, i: int, j: int)
    requires 0 <= i < j < |s| && s[i] == '@' && s[j] == '.'
    requires Bloco(s[..i]) && Bloco(s[i + 1..j]) && Bloco(s[j + 1..])
    ensures EmailValido(s)
  {
    PrimeiraArroba(s, i);
    var d := s[i + 1..];
    var jd := j - i - 1;
    assert d[..jd] == s[i + 1..j];
    assert d[jd + 1..] == s[j + 1..];
    RunComPonto(d, jd);
    assert 0 < jd < |d| - 1 && d[jd] == '.';
  }

  /** Every string the pattern matches is accepted by the scan. */
  lemma CasaEmailValido(s: string)
    requires CasaEmail(s)
    ensures EmailValido(s)
  {
    var i, j :| 0 <= i < j < |s| && s[i] == '@' && s[j] == '.'
      && Bloco(s[..i]) && Bloco(s[i + 1..j]) && Bloco(s[j + 1..]);
    CasaEmailEm(s, i, j);
  }

  /** The scan accepts exactly the strings the pattern matches. */
  lemma EmailValidoSeCasa(s: string)
    ensures EmailValido(s) <==> CasaEmail(s)
  {
    if EmailValido(s) {
      EmailValidoCasa(s);
    }
    if CasaEmail(s) {
      CasaEmailValido(s);
    }
  }

  /** A well-formed email is never blank, so the 'Email inválido' branch is
      reached only by non-blank strings. */
  lemma EmailValidoNaoEmBranco(s: string)
    requires EmailValido(s)
    ensures Trim(s) != []
  {
    assert !IsWhitespace(s[0]);
  }

  /** `.` of a regular expression matches anything but a line terminator. */
  predicate FimDeLinha(c: char) {
    c == '\n' || c == '\r' || c == '\U{2028}' || c == '\U{2029}'
  }

  predicate Minuscula(c: char) { 'a' <= c <= 'z' }
  predicate Maiuscula(c: char) { 'A' <= c <= 'Z' }
  predicate Digito(c: char) { '0' <= c <= '9' }

  /** `(?=.*[cls])` at position `p`: a character of the class occurs at or after
      `p` with no line terminator in between. */
  predicate Alcanca(s: string, p: int, cls: char -> bool)
    requires 0 <= p <= |s|
    ensures Alcanca(s, p, cls) ==> Tem(s, cls)
    ensures p < |s| && cls(s[p]) ==> Alcanca(s, p, cls)
  {
    exists q :: p <= q < |s| && cls(s[q]) && forall m :: p <= m < q ==> !FimDeLinha(s[m])
  }

  /** `/(?=.*[a-z])(?=.*[A-Z])(?=.*[0-9])/.test(senha)`: the unanchored
      pattern succeeds at some position, so a strong password has all three
      classes. */
  predicate SenhaForte(s: string)
    ensures SenhaForte(s) ==> Tem(s, Minuscula) && Tem(s, Maiuscula) && Tem(s, Digito)
  {
    exists p :: 0 <= p <= |s| && Alcanca(s, p, Minuscula) && Alcanca(s, p, Maiuscula) && Alcanca(s, p, Digito)
  }

  predicate Tem(s: string, cls: char -> bool) {
    exists k :: 0 <= k < |s| && cls(s[k])
  }

  /** On a one-line password the pattern asks for a lower-case letter, an
      upper-case letter and a digit somewhere. */
  lemma SenhaForteSemQuebra(s: string)
    requires forall k :: 0 <= k < |s| ==> !FimDeLinha(s[k])
    ensures SenhaForte(s) <==> Tem(s, Minuscula) && Tem(s, Maiuscula) && Tem(s, Digito)
  {
    if Tem(s, Minuscula) && Tem(s, Maiuscula) && Tem(s, Digito) {
      assert Alcanca(s, 0, Minuscula) && Alcanca(s, 0, Maiuscula) && Alcanca(s, 0, Digito);
    }
  }

  /** A line terminator between the letters defeats the pattern even though
      every class occurs. */
  lemma QuebraDeLinhaDerrota()
    ensures Tem("aB\n1", Minuscula) && Tem("aB\n1", Maiuscula) && Tem("aB\n1", Digito)
    ensures !SenhaForte("aB\n1")
  {
    var s := "aB\n1";
    assert Minuscula(s[0]) && Maiuscula(s[1]) && Digito(s[3]);
    forall p | 0 <= p <= |s| ensures !(Alcanca(s, p, Minuscula) && Alcanca(s, p, Digito)) {
      if p == 0 {
        assert FimDeLinha(s[2]);
      }
    }
  }

  /** The name check: 'Nome é obrigatório' for a blank name, else the
      minimum-length message below three UTF-16 units (counted untrimmed). */
  method ChecarNome(nome: string) returns (e: Option<string>)
    ensures e.None? <==> !AllWhitespace(nome) && Utf16Length(nome) >= 3
    ensures e.Some? ==> e.value == if AllWhitespace(nome) then NomeObrigatorio else NomeCurto
  {
    if Trim(nome) == [] {
      e := Some(NomeObrigatorio);
    } else if Utf16Length(nome) < 3 {
      e := Some(NomeCurto);
    } else {
      e := None;
    }
  }

  /** The email check: 'Email é obrigatório' for a blank email, else
      'Email inválido' unless it matches the pattern. */
  method ChecarEmail(email: string) returns (e: Option<string>)
    ensures e.None? <==> CasaEmail(email)
    ensures e.Some? ==> e.value == if AllWhitespace(email) then EmailObrigatorio else EmailInvalido
  {
    EmailValidoSeCasa(email);
    if Trim(email) == [] {
      e := Some(EmailObrigatorio);
    } else if !EmailValido(email) {
      e := Some(EmailInvalido);
    } else {
      e := None;
    }
  }

  /** The password check: the first of empty, shorter than eight UTF-16
      units, or missing a lower-case letter, an upper-case letter or a
      digit. */
  method ChecarSenha(senha: string) returns (e: Option<string>)
    ensures e.None? <==> senha != "" && Utf16Length(senha) >= 8 && SenhaForte(senha)
    ensures e.Some? ==>
      e.value == (if senha == "" then SenhaObrigatoria else if Utf16Length(senha) < 8 then SenhaCurta else SenhaFraca)
  {
    if senha == "" {
      e := Some(SenhaObrigatoria);
    } else if Utf16Length(senha) < 8 {
      e := Some(SenhaCurta);
    } else if !SenhaForte(senha) {
      e := Some(SenhaFraca);
    } else {
      e := None;
    }
  }

  /** Every check of the form passes. */
  ghost predicate FormularioAceito(nome: string, email: string, senha: string, confirmarSenha: string) {
    && !AllWhitespace(nome) && Utf16Length(nome) >= 3
    && CasaEmail(email)
    && senha != "" && Utf16Length(senha) >= 8 && SenhaForte(senha)
    && senha == confirmarSenha
  }

  /** The keys of the error dictionary. */
  datatype Campo = Nome | Email | Senha | ConfirmarSenha

  /** The error dictionary of a form: one entry per failing field, holding
      the message of its first failing check; the confirmation is checked
      on its own. */
  ghost predicate ErrosDoFormulario(erros: map<Campo, string>, nome: string, email: string, senha: string, confirmarSenha: string) {
    && erros.Keys <= {Nome, Email, Senha, ConfirmarSenha}
    && (Nome in erros <==> AllWhitespace(nome) || Utf16Length(nome) < 3)
    && (Nome in erros ==> erros[Nome] == if AllWhitespace(nome) then NomeObrigatorio else NomeCurto)
    && (Email in erros <==> !CasaEmail(email))
    && (Email in erros ==> erros[Email] == if AllWhitespace(email) then EmailObrigatorio else EmailInvalido)
    && (Senha in erros <==> senha == "" || Utf16Length(senha) < 8 || !SenhaForte(senha))
    && (Senha in erros ==>
      erros[Senha] == (if senha == "" then SenhaObrigatoria else if Utf16Length(senha) < 8 then SenhaCurta else SenhaFraca))
    && (ConfirmarSenha in erros <==> senha != confirmarSenha)
    && (ConfirmarSenha in erros ==> erros[ConfirmarSenha] == SenhasDiferentes)
  }

  /** The form determines its error dictionary, which is empty exactly when
      every check passes. */
  lemma ErrosDoFormularioUnicos(e1: map<Campo, string>, e2: map<Campo, string>,
                                nome: string, email: string, senha: string, confirmarSenha: string)
    requires ErrosDoFormulario(e1, nome, email, senha, confirmarSenha)
    requires ErrosDoFormulario(e2, nome, email, senha, confirmarSenha)
    ensures e1 == e2
    ensures e1 == map[] <==> FormularioAceito(nome, email, senha, confirmarSenha)
  {
    assert e1.Keys == e2.Keys by {
      forall c ensures c in e1 <==> c in e2 {
        match c
        case Nome =>
        case Email =>
        case Senha =>
        case ConfirmarSenha =>
      }
    }
    if e1 != map[] {
      var c :| c in e1;
      match c
      case Nome =>
      case Email =>
      case Senha =>
      case ConfirmarSenha =>
    }
  }

  /** `validarFormulario`: the form's error dictionary, and whether the form
      is valid, which it is exactly when every check passes. */
  method ValidarFormulario(nome: string, email: string, senha: string, confirmarSenha: string)
    returns (erros: map<Campo, string>, valido: bool)
    ensures ErrosDoFormulario(erros, nome, email, senha, confirmarSenha)
    ensures valido <==> erros == map[]
    ensures valido <==> FormularioAceito(nome, email, senha, confirmarSenha)
  {
    erros := map[];
    var e := ChecarNome(nome);
    if e.Some? {
      erros := erros[Nome := e.value];
    }
    e := ChecarEmail(email);
    if e.Some? {
      erros := erros[Email := e.value];
    }
    e := ChecarSenha(senha);
    if e.Some? {
      erros := erros[Senha := e.value];
    }
    if senha != confirmarSenha {
      erros := erros[ConfirmarSenha := SenhasDiferentes];
    }
    valido := |erros| == 0;
  }

  datatype TipoUsuario = Aluno | Educador

  /** The body of a reply of `cadastrar`; a missing property is `None` and
      an empty token counts as missing, as it does in JavaScript. */
  datatype Resposta = Resposta(token: Option<string>, usuario: Option<string>)

  /** How the awaited call ended: a reply (possibly `null`), a thrown `Error`
      with its message, or a thrown value that is not an `Error`. */
  datatype Retorno = Respondeu(resposta: Option<Resposta>) | Lancou(mensagem: Option<string>)

  /** What the page does after submitting. */
  datatype Desfecho =
    | Invalido(erros: map<Campo, string>)
    | ErroGeral(mensagem: string)
    | Entrou(token: string, usuario: string, destino: string)

  /** The route after sign-up. */
  function Destino(tipo: TipoUsuario): string {
    if tipo == Aluno then "/anamnese" else "/"
  }

  /** The message shown for a caught error: an `Error` whose message names
      a field is shown as it is, anything else as the generic message. */
  function MensagemDe(mensagem: Option<string>): (m: string)
    ensures m == ErroGenerico || (mensagem.Some? && m == mensagem.value)
    ensures mensagem.Some? && m == mensagem.value && m != ErroGenerico ==>
      Includes(m, "Nome") || Includes(m, "Email") || Includes(m, "Senha")
    ensures mensagem.Some? && (Includes(mensagem.value, "Nome") || Includes(mensagem.value, "Email") || Includes(mensagem.value, "Senha")) ==>
      m == mensagem.value
  {
    if mensagem.Some? && (Includes(mensagem.value, "Nome") || Includes(mensagem.value, "Email") || Includes(mensagem.value, "Senha"))
    then mensagem.value
    else ErroGenerico
  }

  function RespostaValida(r: Option<Resposta>): bool {
    r.Some? && r.value.token.Some? && r.value.token.value != "" && r.value.usuario.Some?
  }

  /** The part of `handleSubmit` after a valid form: log in and route a
      student to the anamnesis and anyone else to the home page, or show an
      error. A reply without token or user is thrown as an error and caught
      by the same handler. */
  function AposCadastro(tipo: TipoUsuario, retorno: Retorno): (d: Desfecho)
    ensures d.Entrou? <==> retorno.Respondeu? && RespostaValida(retorno.resposta)
    ensures d.Entrou? ==>
      && d.destino == (if tipo == Aluno then "/anamnese" else "/")
      && Some(d.token) == retorno.resposta.value.token && Some(d.usuario) == retorno.resposta.value.usuario
    ensures !d.Entrou? ==> d.ErroGeral?
  {
    match retorno
    case Respondeu(r) =>
      if RespostaValida(r) then Entrou(r.value.token.value, r.value.usuario.value, Destino(tipo))
      else ErroGeral(MensagemDe(Some(RespostaInvalida)))
    case Lancou(m) => ErroGeral(MensagemDe(m))
  }

  /** The page's own 'invalid reply' message contains no capital letter
      other than its initial R, so it names no field. */
  lemma SemMaiusculaAlemDoR(sub: string)
    requires sub != [] && Maiuscula(sub[0]) && sub[0] != 'R'
    ensures !Includes(RespostaInvalida, sub)
  {
    var s := RespostaInvalida;
    forall k | 0 <= k < |s| ensures s[k] != sub[0] {
      assert k == 0 || !Maiuscula(s[k]);
    }
    NotIncludesWithoutFirst(s, sub);
  }

  /** So a reply without token or user shows the generic message. */
  lemma RespostaInvalidaMostraGenerico(tipo: TipoUsuario, r: Option<Resposta>)
    requires !RespostaValida(r)
    ensures AposCadastro(tipo, Respondeu(r)) == ErroGeral(ErroGenerico)
  {
    SemMaiusculaAlemDoR("Nome");
    SemMaiusculaAlemDoR("Email");
    SemMaiusculaAlemDoR("Senha");
  }

  const EmailJaCadastrado := "Email já cadastrado"
  const ErroAoCadastrar := "Erro ao cadastrar usuário"

  /** How `cadastrar` of project/src/services/auth.ts ends: it returns the
      mapped user and the token, or throws 'Email já cadastrado' on a 409
      answer and 'Erro ao cadastrar usuário' on any other failure. */
  datatype Cadastrar = Cadastrado(user: string, token: string) | Conflito | Falhou

  /** What the page receives from the service as it is written: the object
      `{ user, token }`, which has no property `usuario`, or the thrown
      `Error`. */
  function RetornoDoServico(c: Cadastrar): (r: Retorno)
    ensures r.Respondeu? <==> c.Cadastrado?
    ensures r.Respondeu? ==> r.resposta.Some? && r.resposta.value.token == Some(c.token) && r.resposta.value.usuario.None?
    ensures r.Lancou? ==> r.mensagem == Some(if c.Conflito? then EmailJaCadastrado else ErroAoCadastrar)
  {
    match c
    case Cadastrado(_, token) => Respondeu(Some(Resposta(Some(token), None)))
    case Conflito => Lancou(Some(EmailJaCadastrado))
    case Falhou => Lancou(Some(ErroAoCadastrar))
  }

  /** The service's generic failure names no field. */
  lemma ErroAoCadastrarSemCampo(sub: string)
    requires sub == "Nome" || sub == "Email" || sub == "Senha"
    ensures !Includes(ErroAoCadastrar, sub)
  {
    var s := ErroAoCadastrar;
    forall i | 0 <= i <= |s| - |sub| ensures !OccursAt(s, sub, i) {
      if i == 0 {
        assert s[i..i + |sub|][1] == s[1] == 'r';
        assert sub[1] != 'r';
      } else {
        assert s[i..i + |sub|][0] == s[i];
        assert !Maiuscula(s[i]);
      }
    }
  }

  /** With the service as written, sign-up never logs in: a successful reply
      lacks `usuario` and shows the generic message, a conflict shows
      'Email já cadastrado', and any other failure the generic message. */
  lemma CadastroNuncaEntra(tipo: TipoUsuario, c: Cadastrar)
    ensures AposCadastro(tipo, RetornoDoServico(c)) == ErroGeral(if c.Conflito? then EmailJaCadastrado else ErroGenerico)
  {
    match c
    case Cadastrado(_, _) =>
      RespostaInvalidaMostraGenerico(tipo, RetornoDoServico(c).resposta);
    case Conflito =>
      assert EmailJaCadastrado == "" + "Email" + " já cadastrado";
      IncludesFacts("", "Email", " já cadastrado");
    case Falhou =>
      ErroAoCadastrarSemCampo("Nome");
      ErroAoCadastrarSemCampo("Email");
      ErroAoCadastrarSemCampo("Senha");
  }

  /** What the page evidently expects: the service's `user` read as
      `usuario`. */
  function RetornoEsperado(c: Cadastrar): (r: Retorno)
    ensures r.Respondeu? <==> c.Cadastrado?
    ensures r.Respondeu? ==> r.resposta == Some(Resposta(Some(c.token), Some(c.user)))
    ensures r.Lancou? ==> r == RetornoDoServico(c)
  {
    match c
    case Cadastrado(user, token) => Respondeu(Some(Resposta(Some(token), Some(user))))
    case _ => RetornoDoServico(c)
  }

  /** With that reply a successful sign-up with a token logs the new user in
      and routes them by type; the failures end as before. */
  lemma CadastroEsperadoEntra(tipo: TipoUsuario, c: Cadastrar)
    ensures c.Cadastrado? && c.token != "" ==>
      AposCadastro(tipo, RetornoEsperado(c)) == Entrou(c.token, c.user, Destino(tipo))
    ensures c.Cadastrado? && c.token == "" ==> AposCadastro(tipo, RetornoEsperado(c)) == ErroGeral(ErroGenerico)
    ensures !c.Cadastrado? ==> AposCadastro(tipo, RetornoEsperado(c)) == AposCadastro(tipo, RetornoDoServico(c))
  {
    if c.Cadastrado? && c.token == "" {
      RespostaInvalidaMostraGenerico(tipo, RetornoEsperado(c).resposta);
    }
  }

  /** `handleSubmit`: an invalid form stops with its errors (the call is not
      made, so `retorno` is ignored); a valid one continues with the reply. */
  method HandleSubmit(nome: string, email: string, senha: string, confirmarSenha: string,
                      tipo: TipoUsuario, retorno: Retorno) returns (d: Desfecho)
    ensures d.Invalido? <==> !FormularioAceito(nome, email, senha, confirmarSenha)
    ensures d.Invalido? ==> d.erros != map[] && ErrosDoFormulario(d.erros, nome, email, senha, confirmarSenha)
    ensures !d.Invalido? ==> d == AposCadastro(tipo, retorno)
  {
    var erros, valido := ValidarFormulario(nome, email, senha, confirmarSenha);
    if !valido {
      return Invalido(erros);
    }
    d := AposCadastro(tipo, retorno);
  }
}
