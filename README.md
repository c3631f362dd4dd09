# Social Fit — a Dafny model of its bookkeeping and form logic

Social Fit is a React/TypeScript fitness social network. Most of it is
presentation. This project models the parts that hold logic:

- **Follow ledger** (`Relacionamentos`, class `FollowLedger`). A list of
  directed follow edges next to a per-user table of denormalised counters
  `{seguidores, seguindo}`. Follow rejects a pair already present and
  unfollow rejects a missing one. The class invariant `Valid()` says there
  is no duplicate pair and every counter equals the number of edges in or
  out of its user. Every mutating method preserves it.
- **Interaction ledger** (`Interacoes`, class `InteractionLedger`). A map
  from activity id to its likes and comments. Every operation, reads
  included, first materialises an empty record for an unknown activity.
  Like lists stay free of duplicates.
- **Workout list** (`Treinos`, with the shapes in `Tipos`). The list the
  workouts page keeps, its filtered view and status statistics, and the
  handlers that start, conclude, create, edit and delete a workout. Each
  handler is a function from the old list to the new one.
- **Workout form** (`FormularioTreino`). The initial form data, the
  exercise list editor, and the per-field edit of one exercise. The edit is
  a method that copies the list into an array and assigns one slot.
- **Sign-up page** (`Cadastro`). `validarFormulario` fills an error
  dictionary field by field (a method). Then comes the decision the submit
  handler takes once the sign-up call has answered. The email regular
  expression is given twice, as a pattern and as a scan, and the two are
  proved equivalent. The password look-ahead regular expression is
  modelled with JavaScript's `.` semantics.
- **Post composer** (`CriarPost`). Poll options, images and the
  submit guard and reset. Every run of user actions keeps the poll between
  two and four options.
- **Comment section** (`SecaoComentarios`). The window of visible comments,
  the submit guard, and the local comment list the component keeps. Submit
  and delete update that list after calling the interaction ledger, and
  the list keeps mirroring the ledger.
- **Profile editor** (`EditarPerfil`). The initial form read from the user's
  optional profile, and the modality checkboxes.

`Seqs` and `Strings` hold the JavaScript array and string operations the
code relies on (`filter`, `map`, `findIndex`, `indexOf`, `splice`, `trim`,
`toLowerCase`, `includes`, UTF-16 `length`), each with its facts.

Ids from `Math.random()` and timestamps from `new Date()` are parameters
(`novoId`, `agora`). How the sign-up call ends is a parameter: the page's
decision takes any reply (`Retorno`), and the service of
`project/src/services/auth.ts` is modelled by the three ways it can end
(`Cadastrar`).

Behaviours of the code that the model keeps as written:

- A user may follow themselves; only the follow button hides the case.
- Comment removal has one combined error for "not found" and "not yours".
- The interaction ledger accepts an empty comment; only the comment section
  trims and guards.
- The name's minimum length is counted on the untrimmed name, and in UTF-16
  code units.
- In the password pattern each `.*` stops at a line terminator. A password
  with all three classes can therefore still fail when a line break separates
  them (`Cadastro.QuebraDeLinhaDerrota`).
- A form opened on a stored workout carries that workout's data. When
  editing, a custom type absent from the form keeps the stored one.
- The sign-up page reads a property `usuario` that the sign-up service never
  returns, so no sign-up logs in (see "## Findings").

## Model

| member | source | states |
|---|---|---|
| Seqs.Filter | project/src/pages/Treinos.tsx:142-149 | `filter`: the result is no longer than the input; it holds exactly the elements that are in the input and satisfy the test; every element satisfies the test |
| Seqs.FilterMultiset | project/src/pages/Treinos.tsx:242 | every copy of a passing element survives a filter and no copy of a failing one does |
| Seqs.FilterIsSubsequence | project/src/pages/Treinos.tsx:242 | a filtered list keeps its survivors in their original order (an order-preserving embedding into the input exists) |
| Seqs.FilterRejectsOne | project/src/services/interacoes.ts:157 | a filter that rejects only the element at k is the same as splicing out index k |
| Seqs.FindIndex | project/src/services/interacoes.ts:151 | `findIndex`: -1 exactly when no element matches; otherwise the index of a match with no match before it |
| Seqs.IndexOf | project/src/services/interacoes.ts:70 | `indexOf`: -1 exactly when the value is absent; otherwise the first index holding it |
| Seqs.Map | project/src/pages/Treinos.tsx:166-168 | `map`: the same length, and each position holds the function applied to the input at that position |
| Seqs.RemoveAt | project/src/services/relacionamentos.ts:119 | `splice(i, 1)` at an index inside the list: one element shorter, the other elements in their order. Every call site passes an index returned by `findIndex` or `indexOf` and already compared with -1, so an index outside the list never reaches it (`splice(-1, 1)` would drop the last element; the model leaves such a list unchanged) |
| Strings.Trim | project/src/pages/Cadastro.tsx:21 | `trim` gives the empty string exactly when every character is JavaScript whitespace; otherwise it starts and ends with non-whitespace |
| Strings.IsWhitespace | project/src/pages/Cadastro.tsx:21 | the characters `trim` and `\s` treat as whitespace are each one UTF-16 unit and never a letter or a digit |
| Strings.ToLowerChar | project/src/pages/Treinos.tsx:147 | a capital (A-Z, or À-Þ except ×) becomes the character 32 code points above it, any other character is kept, and the result is never a capital |
| Strings.ToLowerCase | project/src/pages/Treinos.tsx:147 | `toLowerCase` keeps the length, lowers each character on its own, and leaves no capital |
| Strings.ToLowerCaseSemMaiusculas | project/src/pages/Treinos.tsx:147 | a string without capitals is its own lower case |
| Strings.ToLowerCaseIdempotente | project/src/pages/Treinos.tsx:147 | lowering twice is lowering once |
| Strings.ToLowerCaseFatia | project/src/pages/Treinos.tsx:147 | lowering a slice is slicing the lowered string |
| Strings.Includes | project/src/pages/Treinos.tsx:147-148 | `includes`: a string includes only pieces no longer than itself, and includes itself |
| Strings.IncludesToLower | project/src/pages/Treinos.tsx:147-148 | a piece of a string stays a piece once both are lowered |
| Strings.Utf16Length | project/src/pages/Cadastro.tsx:23 | `length` counts UTF-16 units: never fewer than the characters, and equal to them inside the Basic Multilingual Plane |
| Relacionamentos.SeguidoresExatos | project/src/services/relacionamentos.ts:147-154 | v is among u's followers exactly when the edge v→u exists |
| Relacionamentos.SeguindoExatos | project/src/services/relacionamentos.ts:157-164 | v is among those u follows exactly when the edge u→v exists |
| Relacionamentos.JaSegue | project/src/services/relacionamentos.ts:80-82 | `some` finds the pair exactly when `findIndex` with the same test does |
| Relacionamentos.ContagemAposInserir | project/src/services/relacionamentos.ts:89-96 | appending an edge raises its source's out-count and its target's in-count by one and leaves every other count alone |
| Relacionamentos.ContagemAposRemover | project/src/services/relacionamentos.ts:119-122 | removing an edge lowers the counts of its two endpoints by one and leaves the others alone |
| Relacionamentos.InserirSemDuplicatas | project/src/services/relacionamentos.ts:80-93 | appending a pair that is not yet present keeps the edge list free of duplicates |
| Relacionamentos.RemoverSemDuplicatas | project/src/services/relacionamentos.ts:111-119 | splicing out an edge keeps the list duplicate-free, and the removed pair is then absent |
| Relacionamentos.FollowLedger.constructor | project/src/services/relacionamentos.ts:17-22 | the empty store: no edges, no counters, and the invariant holds |
| Relacionamentos.FollowLedger.AtualizarContadores | project/src/services/relacionamentos.ts:57-69 | missing entries are created as {0, 0}; then the follower's `seguindo` and the followed user's `seguidores` move by the increment, and no other counter changes |
| Relacionamentos.FollowLedger.SeguirUsuario | project/src/services/relacionamentos.ts:72-100 | an existing pair fails with 'Você já segue este usuário' and nothing changes; otherwise exactly one edge is appended and the two counters rise by one; the invariant is preserved |
| Relacionamentos.FollowLedger.DeixarDeSeguir | project/src/services/relacionamentos.ts:103-126 | a missing pair fails with 'Você não segue este usuário' and nothing changes; otherwise the first matching edge is removed, the rest keep their order, and both counters drop by one; the invariant is preserved and the pair is then absent |
| Relacionamentos.FollowLedger.VerificarSeSegue | project/src/services/relacionamentos.ts:129-136 | true exactly when the edge exists; the state is unchanged |
| Relacionamentos.FollowLedger.VerificarSeguindo | project/src/services/relacionamentos.ts:167-178 | same answer as `verificarSeSegue` |
| Relacionamentos.FollowLedger.ObterContadores | project/src/services/relacionamentos.ts:139-144 | the stored entry, or {0, 0} without one; in a valid ledger these equal the lengths of the follower and following lists and are never negative |
| Relacionamentos.FollowLedger.ObterSeguidores | project/src/services/relacionamentos.ts:147-154 | the sources of the edges into the user, in insertion order; a user is listed exactly when they follow; in a valid ledger the length equals the counter |
| Relacionamentos.FollowLedger.ObterSeguindo | project/src/services/relacionamentos.ts:157-164 | the targets of the edges out of the user, in insertion order; a user is listed exactly when followed; in a valid ledger the length equals the counter |
| Interacoes.ComAtividade | project/src/services/interacoes.ts:50-58 | materialising adds an empty record exactly when the id is missing and keeps every other entry |
| Interacoes.AlternarMembro | project/src/services/interacoes.ts:69-76 | an absent user is appended; a present one loses exactly one occurrence (the multiset drops them once) |
| Interacoes.AlternarSemRepeticao | project/src/services/interacoes.ts:69-76 | on a duplicate-free like list the toggle flips membership, keeps the list duplicate-free, and moves the count by one |
| Interacoes.AlternarDuasVezesAusente | project/src/services/interacoes.ts:69-76 | two toggles by a user who had not liked restore the list exactly |
| Interacoes.AlternarDuasVezesPresente | project/src/services/interacoes.ts:69-76 | two toggles by a user who had liked restore membership and count; the user moves to the end |
| Interacoes.RemocaoPorOutroFalha | project/src/services/interacoes.ts:151-155 | when every comment with that id belongs to someone else, no comment matches, so the removal fails |
| Interacoes.InteractionLedger.constructor | project/src/services/interacoes.ts:24-26 | the empty store, with the invariant holding |
| Interacoes.InteractionLedger.GarantirAtividade | project/src/services/interacoes.ts:50-58 | the new map is the old one with an empty record for a missing id; the invariant is preserved |
| Interacoes.InteractionLedger.AlternarCurtida | project/src/services/interacoes.ts:61-84 | `curtido` is true exactly when the user had not liked; only that activity's like list changes, by the toggle; the returned total is the length of the stored list |
| Interacoes.InteractionLedger.VerificarCurtida | project/src/services/interacoes.ts:87-94 | membership in the like list; the only state change is the materialised record |
| Interacoes.InteractionLedger.ObterTotalCurtidas | project/src/services/interacoes.ts:97-104 | the length of the like list; the only state change is the materialised record |
| Interacoes.InteractionLedger.AdicionarComentario | project/src/services/interacoes.ts:107-135 | returns the comment with the given id, author data, text and time, and appends it after the earlier comments of that activity only |
| Interacoes.InteractionLedger.RemoverComentario | project/src/services/interacoes.ts:138-159 | without a comment matching both id and author, one combined error and only the materialised record; otherwise exactly the first match is removed and the rest keep their order |
| Interacoes.InteractionLedger.ObterComentarios | project/src/services/interacoes.ts:162-169 | the comment list in insertion order; the only state change is the materialised record |
| FormularioTreino.DadosIniciais | project/src/components/FormularioTreino.tsx:30-40 | the workout handed in, or else the blank form: type 'forca', 60 minutes, level 'iniciante', medium intensity, empty texts, no exercises |
| FormularioTreino.AdicionarExercicio | project/src/components/FormularioTreino.tsx:42-53 | exactly one exercise {'' , 3, 12, no weight, 60, ''} at the end; the earlier ones and the other fields are unchanged |
| FormularioTreino.RemoverExercicio | project/src/components/FormularioTreino.tsx:55-60 | exactly the exercise at the index goes and the others keep their order; an index outside the list changes nothing |
| FormularioTreino.RemoverDesfazAdicionar | project/src/components/FormularioTreino.tsx:42-60 | removing the exercise just added gives back the form as it was |
| FormularioTreino.Diferencas | project/src/components/FormularioTreino.tsx:224 | the set of property names on which two exercises differ is empty exactly when they are equal |
| FormularioTreino.ComCampo | project/src/components/FormularioTreino.tsx:224 | the spread `{ ...exercicio, campo: valor }` writes the new value to the edited property and changes no other property |
| FormularioTreino.AtualizarExercicio | project/src/components/FormularioTreino.tsx:222-311 | an exercise input's edit: same number of exercises; the edited exercise holds the new value and differs from the old one in that property at most; every other exercise and every other form field is unchanged |
| Treinos.TreinosDoUsuario | project/src/pages/Treinos.tsx:129-131 | on load: none without a user; otherwise exactly the stored workouts of that user, in stored order |
| Treinos.TreinosFiltrados | project/src/pages/Treinos.tsx:142-149 | a workout is shown exactly when it is in the list and passes the type filter, the status filter and the case-insensitive search on name or goal |
| Treinos.FiltradosEmUmaPassada | project/src/pages/Treinos.tsx:142-149 | the three chained filters are one filter by the conjunction, so the view keeps the list's order |
| Treinos.SemFiltrosMostraTudo | project/src/pages/Treinos.tsx:143-146 | with both selects on 'todos' and an empty search the view is the whole list |
| Treinos.BuscaIgnoraCaixa | project/src/pages/Treinos.tsx:145-149 | a search term and its lower case show the same workouts |
| Treinos.BuscaAchaTrechoExato | project/src/pages/Treinos.tsx:145-149 | a workout whose name or goal contains the term as typed is shown by the search |
| Treinos.StatusParticiona | project/src/pages/Treinos.tsx:151-156 | the concluded, in-progress and not-started counts add up to the length of the list |
| Treinos.EstatisticasTreinos | project/src/pages/Treinos.tsx:151-156 | the total is the list's length and the three status counts add up to it |
| Treinos.Substituir | project/src/pages/Treinos.tsx:166-168 | `map` by id: every entry with the id becomes the new record, every other entry stays in place |
| Treinos.SubstituirUnico | project/src/pages/Treinos.tsx:166-168 | with unique ids, replacing one entry by a record with the same id keeps the ids unique and moves one workout from its old status count to the new one |
| Treinos.HandleIniciarTreino | project/src/pages/Treinos.tsx:158-172 | the same length; every entry with the workout's id becomes the workout handed in with status 'em_andamento' and `iniciadoEm` the given time, every other field as handed in; all other entries are unchanged |
| Treinos.HandleConcluirTreino | project/src/pages/Treinos.tsx:174-188 | the same length; every entry with the workout's id becomes the workout handed in with status 'concluido' and `concluidoEm` the given time, every other field as handed in; all other entries are unchanged |
| Treinos.IniciarNasEstatisticas | project/src/pages/Treinos.tsx:158-172 | starting a not-started workout moves one from the not-started count to the in-progress count and keeps the ids unique |
| Treinos.ConcluirNasEstatisticas | project/src/pages/Treinos.tsx:174-188 | concluding an in-progress workout moves one from the in-progress count to the concluded count and keeps the ids unique |
| Treinos.AcaoOferecida | project/src/pages/Treinos.tsx:427-444 | 'Iniciar' exactly on a workout not started, 'Concluir' exactly on one in progress, no button exactly on a concluded one |
| Treinos.BotaoAvancaUmaEtapa | project/src/pages/Treinos.tsx:427-444 | a concluded workout offers no button; the offered button moves the workout exactly one step along not started → in progress → concluded |
| Treinos.NovoTreino | project/src/pages/Treinos.tsx:192-200 | the new workout carries the form data, the given id, the user's id (or ''), the time, status 'nao_iniciado', no likes and no comments |
| Treinos.HandleNovoTreino | project/src/pages/Treinos.tsx:190-211 | the list grows by one; the old entries are kept and the new workout is at the end |
| Treinos.NovoNasEstatisticas | project/src/pages/Treinos.tsx:190-211 | a new workout raises the total and the not-started count by one and leaves the other counts alone |
| Treinos.NovoIdsUnicos | project/src/pages/Treinos.tsx:190-211 | a new workout with an id not yet in the list keeps the ids unique |
| Treinos.Mesclado | project/src/pages/Treinos.tsx:217-221 | the merged record carries the form data (a custom type absent from the form keeps the stored one), keeps the identity, status, dates, likes and comments, and is stamped with the edit time |
| Treinos.HandleEditarTreino | project/src/pages/Treinos.tsx:213-238 | nothing changes without a workout under edit or without a user; otherwise only entries with the edited id become the merged record |
| Treinos.EditarMantemEstatisticas | project/src/pages/Treinos.tsx:213-238 | with unique ids an edit changes no status count, keeps the ids unique, and stores the submitted form data, with the stored custom type when the form carries none |
| Treinos.HandleExcluirTreino | project/src/pages/Treinos.tsx:240-251 | every entry with the id goes; a workout remains exactly when it was there with another id, with all its copies; the rest keep their order |
| Treinos.ExcluirUnico | project/src/pages/Treinos.tsx:242 | with unique ids, deleting the workout at index k is removing index k |
| Cadastro.CasaEmail | project/src/pages/Cadastro.tsx:29 | `^[^\s@]+@[^\s@]+\.[^\s@]+$` read off as three non-empty runs around an '@' and a later '.'; a match has at least five characters, an '@' and a '.' |
| Cadastro.EmailValido | project/src/pages/Cadastro.tsx:29 | the same test as a scan from the first '@'; an accepted string has at least five characters and neither starts nor ends with whitespace |
| Cadastro.EmailValidoCasa | project/src/pages/Cadastro.tsx:29 | every string the scan accepts matches `^[^\s@]+@[^\s@]+\.[^\s@]+$` |
| Cadastro.CasaEmailEm | project/src/pages/Cadastro.tsx:29 | an '@' and a later '.' splitting the string into three runs free of whitespace and '@' make the scan accept it |
| Cadastro.CasaEmailValido | project/src/pages/Cadastro.tsx:29 | every string matching the pattern is accepted by the scan |
| Cadastro.EmailValidoSeCasa | project/src/pages/Cadastro.tsx:27-31 | the scan accepts exactly the strings the pattern matches |
| Cadastro.EmailValidoNaoEmBranco | project/src/pages/Cadastro.tsx:27-31 | a well-formed email is never blank, so only non-blank strings can reach 'Email inválido' |
| Cadastro.Alcanca | project/src/pages/Cadastro.tsx:37 | a look-ahead `(?=.*[cls])` at a position succeeds when the character there is of the class, and only when the class occurs |
| Cadastro.SenhaForte | project/src/pages/Cadastro.tsx:37 | the unanchored look-ahead pattern succeeds somewhere; a strong password has a lower-case letter, an upper-case letter and a digit |
| Cadastro.SenhaForteSemQuebra | project/src/pages/Cadastro.tsx:37 | on a one-line password the pattern holds exactly when a lower-case letter, an upper-case letter and a digit all occur |
| Cadastro.QuebraDeLinhaDerrota | project/src/pages/Cadastro.tsx:37 | "aB\n1" has all three classes yet fails the pattern, because `.` does not cross a line break |
| Cadastro.ChecarNome | project/src/pages/Cadastro.tsx:21-25 | no error exactly when the name is not blank and has at least three UTF-16 units; 'Nome é obrigatório' for a blank name, else the minimum-length message |
| Cadastro.ChecarEmail | project/src/pages/Cadastro.tsx:27-31 | no error exactly when the email matches the pattern; 'Email é obrigatório' for a blank email, else 'Email inválido' |
| Cadastro.ChecarSenha | project/src/pages/Cadastro.tsx:33-39 | no error exactly when the password is non-empty, has at least eight units and passes the strength pattern; otherwise the message of the first failing check |
| Cadastro.ErrosDoFormularioUnicos | project/src/pages/Cadastro.tsx:18-47 | the form fixes its error dictionary, and that dictionary is empty exactly when every check passes |
| Cadastro.ValidarFormulario | project/src/pages/Cadastro.tsx:18-47 | one key per failing field with its first failing message; the confirmation mismatch is reported on its own; the form is valid exactly when no key was set, which is exactly when every check passes |
| Cadastro.MensagemDe | project/src/pages/Cadastro.tsx:76-87 | a caught `Error` whose message includes 'Nome', 'Email' or 'Senha' is shown as it is, and a message shown as it is includes one of them; anything else shows the generic message |
| Cadastro.AposCadastro | project/src/pages/Cadastro.tsx:59-90 | login happens exactly when the reply has a non-empty token and a user, with that token and user; a student goes to '/anamnese' and anyone else to '/'; every other outcome is a general error |
| Cadastro.SemMaiusculaAlemDoR | project/src/pages/Cadastro.tsx:64 | the 'Resposta inválida do servidor' message includes no word starting with a capital other than R |
| Cadastro.RespostaInvalidaMostraGenerico | project/src/pages/Cadastro.tsx:62-87 | a reply without token or user ends with the generic error message, not the page's own one |
| Cadastro.RetornoDoServico | project/src/services/auth.ts:54-64 | the service returns an object with a token and no `usuario`, or throws 'Email já cadastrado' on a conflict and 'Erro ao cadastrar usuário' otherwise |
| Cadastro.ErroAoCadastrarSemCampo | project/src/services/auth.ts:63 | 'Erro ao cadastrar usuário' includes none of 'Nome', 'Email', 'Senha' |
| Cadastro.CadastroNuncaEntra | project/src/pages/Cadastro.tsx:60-87 | with the service as written no sign-up logs in: success and any non-conflict failure show the generic message, a conflict shows 'Email já cadastrado' |
| Cadastro.RetornoEsperado | project/src/pages/Cadastro.tsx:63-67 | the reply the page reads when the service's `user` is taken as `usuario` |
| Cadastro.CadastroEsperadoEntra | project/src/pages/Cadastro.tsx:60-87 | with that reply a success with a token logs the user in and routes by type; an empty token shows the generic message; failures end as with the service as written |
| Cadastro.HandleSubmit | project/src/pages/Cadastro.tsx:49-91 | an invalid form stops with a non-empty dictionary holding exactly the form's errors and makes no call; a valid one continues with the decision on the reply |
| CriarPost.AdicionarOpcaoEnquete | project/src/components/CriarPost.tsx:39-43 | below four options, one empty option is appended after the others; at four nothing changes; no other field changes |
| CriarPost.RemoverOpcaoEnquete | project/src/components/CriarPost.tsx:45-49 | above two options, exactly the option at the index goes and the others keep their order; otherwise nothing changes |
| CriarPost.AtualizarOpcaoEnquete | project/src/components/CriarPost.tsx:51-55 | option i gets the text and every other option stays |
| CriarPost.RemoverImagem | project/src/components/CriarPost.tsx:35-37 | exactly the image at the index goes and the others keep their order |
| CriarPost.ImagemCarregada | project/src/components/CriarPost.tsx:27-29 | a finished load appends its data URL to the images |
| CriarPost.PodeEnviar | project/src/components/CriarPost.tsx:58 | the submit guard passes exactly when the text is not blank or some image is attached |
| CriarPost.HandleSubmit | project/src/components/CriarPost.tsx:57-77 | a blank text without images sends nothing and changes nothing; otherwise the post carries the text, images, privacy, author and time, a poll exactly when it is shown, and the form is reset to its initial state |
| CriarPost.PassoNoLimite | project/src/components/CriarPost.tsx:35-77 | every user action keeps the poll between two and four options |
| CriarPost.ExecutarNoLimite | project/src/components/CriarPost.tsx:35-77 | every run of actions from a state within the bounds stays within them |
| CriarPost.SempreNoLimite | project/src/components/CriarPost.tsx:19-77 | from the initial two options, the poll never has fewer than two or more than four |
| SecaoComentarios.ComentariosVisiveis | project/src/components/SecaoComentarios.tsx:96-100 | the whole list when expanded or at most two long; otherwise exactly the last two comments |
| SecaoComentarios.TemMaisComentarios | project/src/components/SecaoComentarios.tsx:102 | true exactly when the collapsed list hides some comment |
| SecaoComentarios.VerMaisSeOculta | project/src/components/SecaoComentarios.tsx:102-125 | the 'Ver mais comentários' link shows exactly when some comment is hidden |
| SecaoComentarios.TextoAEnviar | project/src/components/SecaoComentarios.tsx:43-52 | nothing is sent without a user or with a blank draft; otherwise the trimmed draft, which is non-empty |
| SecaoComentarios.PodeRemoverEncontra | project/src/components/SecaoComentarios.tsx:144-146 | a delete offered on the viewer's own comment always finds a comment of the viewer with that id in the ledger |
| SecaoComentarios.HandleSubmit | project/src/components/SecaoComentarios.tsx:41-68 | when the guard passes, the comment goes to the ledger, the returned comment is appended locally and the total is the new length; a local list that mirrored the ledger still does |
| SecaoComentarios.HandleRemover | project/src/components/SecaoComentarios.tsx:78-93 | an accepted removal drops every local comment with the id and reports the new length; a refused one leaves the list as it was; with unique ids the local list keeps mirroring the ledger |
| EditarPerfil.FormularioInicial | project/src/components/EditarPerfil.tsx:29-42 | each field comes from the user or their profile; '' (or no modalities) when the user, the profile or the property is missing |
| EditarPerfil.AlternarModalidade | project/src/components/EditarPerfil.tsx:67-69 | a checked modality loses every occurrence and every other modality keeps all its copies, in order; an unchecked one is appended at the end |
| EditarPerfil.HandleModalidadeChange | project/src/components/EditarPerfil.tsx:66-72 | only the modality list changes, by the toggle |
| EditarPerfil.AlternarDuasVezesAusente | project/src/components/EditarPerfil.tsx:66-72 | checking and then unchecking an absent modality gives back the original form |
| EditarPerfil.AlternarDuasVezesPresente | project/src/components/EditarPerfil.tsx:66-72 | unchecking and then checking a present modality leaves it once, at the end, after the other modalities in their order |
| EditarPerfil.OutroAlternaCampo | project/src/components/EditarPerfil.tsx:232 | toggling 'Outro' shows or hides the 'Qual modalidade?' input; toggling any other modality leaves it as it was |

## Left out

- Persistence: the `localStorage` load and save and their JSON encoding. Each service reloads its store before every operation. Follow, unfollow, a like toggle, adding a comment and a successful removal save it afterwards; a read saves only when `garantirAtividade` creates a missing record, and an operation that fails saves nothing. The model keeps the store in memory, so the object's state is the store as last saved or as it would be saved. Dates revived from JSON are integers here.
- The workouts page's storage: it saves only after create, edit and delete (`project/src/pages/Treinos.tsx:204`, `:231`, `:244`), and it saves the signed-in user's list alone, so workouts of other users stored under the same key are overwritten. Start and conclude change only the page's state and are never saved. The model describes the page's list, not the stored one.
- Simulated network delays (`setTimeout`) and `async`/`await`: each call and each handler is one atomic step. React's batching of state updates and its stale closures are not modelled either.
- `Math.random()` ids and `new Date()` timestamps: these are parameters.
- Login, navigation and the authentication context. The page's decision is a value (`Cadastro.Desfecho`). The sign-up call's HTTP request and the server are not modelled; how the call ends is a parameter (`Cadastro.Cadastrar`).
- `Strings.ToLowerChar`: maps only A-Z and the Latin-1 capitals. It leaves out the rest of Unicode case mapping, whose tables are outside this model.
- `Number(e.target.value)` on the exercise inputs: the model takes the parsed value. Series, repetitions and rest are integers, and the weight is a real. `NaN` and fractional counts are not modelled.
- The `FileReader` load in `CriarPost`: only its completion, which appends a data URL, is modelled (`CriarPost.ImagemCarregada`).
- The plain field setters (`setDados({ ...dados, campo })` in the workout form, `setFormData` in the profile editor, `setTexto` in the composer): each replaces one field. In `CriarPost` they appear as the `Digitar` action.
- The workout form's submit hands the form data unchanged to its caller. It has no computation of its own; `Treinos.NovoTreino` and `Treinos.Mesclado` state what the caller does with that data.
- The profile editor's submit and avatar upload: calls into the authentication service and the upload service, which are not part of this model.
- The comment section's load effect, its loading and error flags, and the rendering of every page.
- The feed's recommendation sort and the poll's percentage rounding: floating-point arithmetic on dates, outside this model.
- `Treinos.IniciarNasEstatisticas`, `Treinos.ConcluirNasEstatisticas`, `Treinos.ExcluirUnico`: assume the ids in the list are unique. The source draws ids from `Math.random()` and never checks this.
- `SecaoComentarios.HandleRemover`: the local list is shown to keep mirroring the ledger only when comment ids are unique, for the same reason.

## Findings

| source | as written | input that shows it | evidently intended | confidence | as-written member | corrected member |
|---|---|---|---|---|---|---|
| project/src/pages/Cadastro.tsx:60-64 | The page calls `cadastrar(nome, email, senha, tipoUsuario)` and then requires `resposta?.usuario`. But `cadastrar` (project/src/services/auth.ts:54-58) takes one object and returns `{ user, token }`, which has no `usuario`. | Any successful sign-up, e.g. `Cadastrado("u1", "t1")`: the page throws 'Resposta inválida do servidor' and shows the generic error instead of logging in. | Pass `{ nome, email, senha, tipoUsuario }` and read `resposta.user`, so that a successful sign-up logs the user in and routes them by type. | not executed; high | Cadastro.CadastroNuncaEntra | Cadastro.CadastroEsperadoEntra |
