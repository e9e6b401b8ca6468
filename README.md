# funil-de-ideias in Dafny

A model of the business rules of *funil-de-ideias*, an idea-funnel web
application. Ideas are written on a form, tagged, voted on, given a product
definition and attachments, and moved through five lifecycle statuses:
Geração, Em Definição, Pronta para Avaliação, Aprovada and Arquivada.
Evaluators approve or archive the ideas that are ready.

The application is a React front end over a hosted database. Here the
database is one object, `Servico.Banco`:

- each table it writes (ideas, tags, idea–tag links, votes, evaluations,
  product definitions, attachments) is a field of type `map`, `seq` or `set`;
- the storage bucket is a set of paths;
- each service call is a method with a `modifies` frame naming the tables it
  writes.

The pages are modelled where they hold rules:

- the transitions and ownership gating of the detail page;
- the progress figure of the definition form;
- the upload filter over a batch of files;
- the evaluation form's guard, payload and reset;
- the list page's tag collection, filters, sorts and filter bar;
- the new-idea form's tag parsing;
- the dashboard's counts.

Modules:

- `Modelo`: the records, the five statuses, and `filter` with its laws.
- `Texto`: JavaScript's `trim`, `toLowerCase`, `includes`, `split`, `String(n)` and the default string order of `sort`.
- `Servico`: the service layer (`src/services/ideiasService.js`).
- `DetalhesIdeia`, `PaginaAvaliacao`, `PaginaIdeias`, `PaginaNovaIdeia`, `Dashboard`: the pages of the same names.

Some inputs are parameters of the methods that use them:

- the clock (`Date.now()`);
- the random file-name suffix;
- the user id;
- the backend's answer wherever it steers control flow (an insert refused, a storage upload or removal refused).

## Model

| member | source | states |
|---|---|---|
| Modelo.StatusDistintos | src/services/ideiasService.js:130-134 | the five status texts are pairwise distinct |
| Modelo.Filtrar | src/pages/Dashboard.jsx:9-13 | `filter` keeps exactly the elements that pass, no more of each than the input had |
| Modelo.FiltrarSubsequencia | src/pages/Avaliacao.jsx:19 | what a filter keeps is in the input's order (a sub-sequence) |
| Modelo.FiltrarAnexar | src/pages/Dashboard.jsx:9-13 | filtering a list with one more element appends that element exactly when it passes |
| Modelo.FiltrarConcat | src/pages/NovaIdeia.jsx:27 | filtering a concatenation is the concatenation of the filtered parts |
| Modelo.FiltrarTodos | src/pages/Ideias.jsx:43-66 | a filter every element passes returns the list unchanged |
| Modelo.FiltrarNenhum | src/pages/NovaIdeia.jsx:27 | a filter no element passes returns the empty list |
| Modelo.FiltrarFiltrar | src/pages/Ideias.jsx:48-66 | two filters in a row keep what passes both |
| Modelo.FiltrarExtensional | src/pages/Ideias.jsx:48-66 | filters that agree on every element give the same list |
| Modelo.Statuses | src/services/ideiasService.js:122-124 | the status column of the rows, in row order |
| Modelo.FiltrarPorStatus | src/pages/Dashboard.jsx:9-13 | `filter(i => i.status === st).length` is the number of occurrences of `st` among the statuses |
| Texto.Trim | src/pages/DetalhesIdeia.jsx:228-236 | `trim()` is no longer than its input, and is empty exactly when the input is whitespace only |
| Texto.TrimPontas | src/pages/NovaIdeia.jsx:27 | a trimmed string neither starts nor ends with whitespace |
| Texto.TrimFatia | src/pages/NovaIdeia.jsx:27 | the trimmed string is the slice of the input between its leading and its trailing whitespace: what comes before it and what comes after it are whitespace only |
| Texto.TrimSemCaractere | src/pages/NovaIdeia.jsx:27 | trimming introduces no character, so a piece without commas trims to one without commas |
| Texto.TrimIdempotente | src/pages/NovaIdeia.jsx:27 | trimming a trimmed string changes nothing |
| Texto.Minuscula | src/pages/Ideias.jsx:47-52 | `toLowerCase` of a character: each capital A–Z becomes its own small letter, each Latin-1 capital U+00C0–U+00DE except U+00D7 moves up by 0x20, and every other character is kept |
| Texto.Minusculas | src/pages/Ideias.jsx:47-52 | `toLowerCase` keeps the length and maps each character |
| Texto.MinusculasIdempotente | src/pages/Ideias.jsx:47-52 | lower-casing twice is lower-casing once |
| Texto.ContemDePosicao | src/pages/Ideias.jsx:49-52 | an occurrence at some position makes `includes` true |
| Texto.PosicaoDeContem | src/pages/Ideias.jsx:49-52 | when `includes` is true, the term occurs at a position it returns |
| Texto.ContemPosicao | src/pages/Ideias.jsx:49-52 | `includes` holds exactly when the term occurs at some position |
| Texto.Dividir | src/pages/NovaIdeia.jsx:27 | `split(sep)` gives one piece more than there are separators |
| Texto.JuntarDividir | src/pages/NovaIdeia.jsx:27 | joining the pieces of a split with the separator gives the input back |
| Texto.DividirConcat | src/pages/NovaIdeia.jsx:27 | `(x + sep + y).split(sep)` is `x.split(sep)` followed by `y.split(sep)` |
| Texto.DividirSemSeparadorNasPartes | src/pages/NovaIdeia.jsx:27 | no piece of a split holds the separator |
| Texto.DividirSemSeparador | src/services/ideiasService.js:337 | a string without the separator splits into itself alone |
| Texto.DividirJuntar | src/pages/NovaIdeia.jsx:27 | splitting a join of separator-free pieces gives the pieces back |
| Texto.DividirCaracteres | src/pages/NovaIdeia.jsx:27 | every character of every piece is a character of the input |
| Texto.Extensao | src/services/ideiasService.js:337 | `name.split('.').pop()` holds no '.', and is the whole name when the name has none |
| Texto.ExtensaoDoSufixo | src/services/ideiasService.js:337 | after any prefix, a final `.ext` with no '.' in `ext` is the extension |
| Texto.Decimal | src/services/ideiasService.js:338 | `String(n)` of a non-negative integer is non-empty, all digits, with no leading zero |
| Texto.DecimalIda | src/services/ideiasService.js:338 | reading back the digits of `String(n)` gives `n` |
| Texto.LexTotal | src/pages/Ideias.jsx:38 | the default string order of `sort` is total |
| Texto.LexAntissimetrico | src/pages/Ideias.jsx:38 | the default string order is antisymmetric |
| Texto.LexTransitivo | src/pages/Ideias.jsx:38 | the default string order is transitive |
| Servico.ConsultaUnica | src/services/ideiasService.js:150-155 | `.single()` answers the row when exactly one matches, and the "no row" code PGRST116 otherwise |
| Servico.LerUnica | src/services/ideiasService.js:157-158 | the "no row" code reads as absent, any other code is an error, a row is present |
| Servico.OuNulo | src/services/ideiasService.js:35-37 | `valor \|\| null`: empty text becomes null, any other is kept |
| Servico.ComStatus | src/services/ideiasService.js:79-82 | the update always sets the status, sets the rejection rationale only for a truthy justification, and changes nothing else |
| Servico.JustificativaRepassada | src/services/ideiasService.js:255-259 | the evaluation passes its justification only when its decision is Arquivada |
| Servico.NomesDeTags | src/services/ideiasService.js:52 | each tag name is looked up lower-cased, in order |
| Servico.BuscarTag | src/services/ideiasService.js:49-53 | the lookup finds a tag exactly when the name is in the table, and at a position holding that name |
| Servico.TagsApos | src/services/ideiasService.js:47-65 | find-or-create only appends to the tags table |
| Servico.TagsAposConteudo | src/services/ideiasService.js:47-65 | after find-or-create the table has no repeated names, holds every name, and holds nothing but the old tags and the names |
| Servico.Parada | src/services/ideiasService.js:46-62 | the tag loop stops at the first name that is neither in the table by then nor accepted by its insert, or after the last name |
| Servico.ParadaPrimeira | src/services/ideiasService.js:46-62 | every name before the stop is in the table by then or has its insert accepted |
| Servico.ParadaPasso | src/services/ideiasService.js:46-62 | the loop goes past a name exactly when that name is in the table by then or its insert is accepted |
| Servico.ParadaSemRecusa | src/services/ideiasService.js:57-62 | with every tag insert accepted the loop goes through all the names |
| Servico.ParadaSoEmTagNova | src/services/ideiasService.js:49-62 | names already in the table never stop the loop, whatever the insert outcomes |
| Servico.IdDaTag | src/services/ideiasService.js:55-65 | the id linked is the existing tag's when the name is present, otherwise the new last position |
| Servico.ParesApos | src/services/ideiasService.js:67-70 | one link row per tag name given |
| Servico.ParesAposVinculam | src/services/ideiasService.js:47-71 | link row `k` joins the new idea to a tag whose name is the `k`-th name |
| Servico.PosicaoDefinicao | src/services/ideiasService.js:283-287 | the position found holds the idea's definition; none found means no row is the idea's |
| Servico.LinhasDaIdeia | src/services/ideiasService.js:283-287 | with one definition per idea, the rows matching an idea are its row or none |
| Servico.CaminhoArmazenamento | src/services/ideiasService.js:337-339 | the stored path lies in the idea's folder `anexos/<id>/` and has the file name's extension |
| Servico.CaminhoDeterminaIdeiaEMomento | src/services/ideiasService.js:338-339 | two equal paths have the same idea and the same moment |
| Servico.Alternado | src/services/ideiasService.js:184-193 | a toggle flips that one vote and keeps every other vote |
| Servico.AlternarDuasVezes | src/services/ideiasService.js:184-193 | two toggles of the same vote restore the vote set |
| Servico.AlternarContagem | src/services/ideiasService.js:184-193 | a toggle moves the idea's vote count by exactly one and leaves other ideas' votes alone |
| Servico.RegistroNovo | src/services/ideiasService.js:30-38 | the inserted row starts in Geração with no owner and no rationale, carries the author, title and description, and stores `fonte`, `segmento` and `impacto` as typed when non-empty and as null when empty, with the creation time now |
| Servico.Banco.Criar | src/services/ideiasService.js:28-75 | inserts the idea with a fresh id, defaults and empty fields as null; the tags and link rows become those of find-or-create over the lower-cased names up to the first refused new-tag insert; the id is returned exactly when there is none, a backend error otherwise, with the idea and the earlier links kept |
| Servico.Banco.VincularTags | src/services/ideiasService.js:46-72 | the tag loop succeeds exactly when no new-tag insert is refused, and leaves the table and the link rows equal to find-or-create over the names before the stop, one link per name |
| Servico.Banco.VincularTag | src/services/ideiasService.js:48-70 | one name: it goes through exactly when the tag exists or its insert is accepted, and then the tag is reused or appended and one link row to it is added; otherwise nothing is written |
| Servico.Banco.AtualizarStatus | src/services/ideiasService.js:78-93 | writes the status update to the idea's row and returns it; a missing row is the "no row" error and changes nothing |
| Servico.Banco.AssumirOwnership | src/services/ideiasService.js:96-106 | sets the owner with no check; a missing row is the "no row" error |
| Servico.Banco.VerificarVoto | src/services/ideiasService.js:149-159 | answers whether the (idea, user) vote exists; "no row" is false rather than an error |
| Servico.Banco.Votar | src/services/ideiasService.js:162-169 | inserts the vote; an existing pair is refused by the key and changes nothing |
| Servico.Banco.RemoverVoto | src/services/ideiasService.js:172-181 | deletes exactly the vote matching both idea and user |
| Servico.Banco.ToggleVoto | src/services/ideiasService.js:184-193 | the vote set becomes the toggled set, and the answer is whether the vote now exists |
| Servico.Banco.CriarAvaliacao | src/services/ideiasService.js:245-262 | a refused insert writes nothing; an accepted one records the evaluation, then sets the status to the decision with the justification only for Arquivada |
| Servico.Banco.BuscarDefinicao | src/services/ideiasService.js:282-291 | returns the idea's definition or none, never an error |
| Servico.Banco.SalvarDefinicao | src/services/ideiasService.js:294-315 | after saving, the idea's definition is the one given, other ideas' are unchanged, and a row is added only when the idea had none |
| Servico.PosicaoAposTroca | src/services/ideiasService.js:297-305 | updating the idea's row keeps one row per idea and changes no other idea's definition |
| Servico.PosicaoAposAnexar | src/services/ideiasService.js:307-313 | inserting a row for an idea without one keeps one row per idea |
| Servico.PosicaoUnica | src/services/ideiasService.js:294-315 | with one row per idea, the row found is the only row of the idea |
| Servico.Banco.UploadAnexo | src/services/ideiasService.js:335-370 | an occupied path or an upload the storage refuses is an error with nothing written; otherwise the object is stored, and the metadata row is added, under the next attachment id, only when its insert is accepted |
| Servico.Banco.DeletarAnexo | src/services/ideiasService.js:401-417 | a refused storage removal deletes nothing; the row goes only after the object is removed |
| Servico.ContarPorStatusComoEscrito | src/services/ideiasService.js:121-144 | as written: each status counts its rows, and `total` is the row count plus the rows whose status is the text "total" |
| Servico.TotalInfladoPorStatusTotal | src/services/ideiasService.js:137-141 | a row with status "total" makes the as-written total exceed the row count (2 for one such row) |
| Servico.ContarPorStatus | src/services/ideiasService.js:121-144 | `total` is the row count and each of the five statuses counts exactly its rows |
| Servico.SomaDosStatus | src/services/ideiasService.js:128-141 | the five counts add up to at most the total, exactly the total iff every row has one of the five statuses |
| DetalhesIdeia.Ordem | src/pages/DetalhesIdeia.jsx:572-585 | a status's place along the lifecycle, -1 exactly for an unknown text |
| DetalhesIdeia.ProximosStatus | src/pages/DetalhesIdeia.jsx:572-585 | at most one next status, always one step forward, none exactly from Pronta para Avaliação, Arquivada or an unknown status |
| DetalhesIdeia.AprovacaoSoPorAvaliacao | src/pages/DetalhesIdeia.jsx:572-585 | no manual transition leads to Aprovada |
| DetalhesIdeia.CaminhoManualAteAvaliacao | src/pages/DetalhesIdeia.jsx:572-585 | Geração → Em Definição → Pronta para Avaliação, which (like Arquivada) offers nothing |
| DetalhesIdeia.IsOwner | src/pages/DetalhesIdeia.jsx:589 | the user owns the idea when `owner_id` is the user's id; an idea without an owner is owned by no one |
| DetalhesIdeia.IsAutor | src/pages/DetalhesIdeia.jsx:590 | the user is the author when `autor_id` is the user's id (a definition; StatusOferecidos states its use) |
| DetalhesIdeia.PodeAssumirOwnership | src/pages/DetalhesIdeia.jsx:588 | ownership may be taken exactly when there is no owner and the idea is neither approved nor archived |
| DetalhesIdeia.AssumirEncerraOferta | src/pages/DetalhesIdeia.jsx:588-589 | after a user takes the idea, they are its owner and ownership is offered to no one |
| DetalhesIdeia.StatusOferecidos | src/pages/DetalhesIdeia.jsx:650-661 | status buttons are shown only to the owner or the author, exactly when there is a next status |
| DetalhesIdeia.OfertaAvancaUmPasso | src/pages/DetalhesIdeia.jsx:650-661 | an offered status is one step forward, never Aprovada, and offered only to the owner or the author |
| DetalhesIdeia.HandleMudarStatus | src/pages/DetalhesIdeia.jsx:555-569 | writes the chosen status with no justification, so the rejection rationale stays |
| DetalhesIdeia.HandleAssumirOwnership | src/pages/DetalhesIdeia.jsx:539-552 | makes the user the owner of an existing idea |
| DetalhesIdeia.PreenchidoSeTrim | src/pages/DetalhesIdeia.jsx:228-236 | `field?.trim()` is truthy exactly when the field has a character other than whitespace |
| DetalhesIdeia.Preenchidos | src/pages/DetalhesIdeia.jsx:224-243 | at most eight fields are filled |
| DetalhesIdeia.PreenchidosExtremos | src/pages/DetalhesIdeia.jsx:224-243 | the count is 8 exactly when all fields are filled, 0 exactly when none is |
| DetalhesIdeia.Progresso | src/pages/DetalhesIdeia.jsx:245 | the progress is in 0..100 and within half a point of the filled share as a percentage |
| DetalhesIdeia.ProgressoExtremos | src/pages/DetalhesIdeia.jsx:224-245 | 0% exactly when nothing is filled, 100% exactly when everything is |
| DetalhesIdeia.MeioParaCima | src/pages/DetalhesIdeia.jsx:245 | `Math.round(n / 8 * 100)` in integers is the progress, halves rounded up |
| DetalhesIdeia.ContarTexto | src/pages/DetalhesIdeia.jsx:228-229 | a text line adds one to the filled count exactly when the field is filled, and one to the field count |
| DetalhesIdeia.ContarMarcado | src/pages/DetalhesIdeia.jsx:238-239 | a check-box line adds one to the filled count exactly when it is checked, and one to the field count |
| DetalhesIdeia.CalcularProgresso | src/pages/DetalhesIdeia.jsx:224-246 | the counters and the rounding give the progress of the definition |
| DetalhesIdeia.DefinicaoInicial | src/pages/DetalhesIdeia.jsx:460-470 | the initial definition: empty texts, unchecked boxes, 0% (a definition; ProgressoInicial states its meaning) |
| DetalhesIdeia.ProgressoInicial | src/pages/DetalhesIdeia.jsx:460-470 | the initial definition shows 0%, consistent with its empty fields |
| DetalhesIdeia.ProgressoMonotono | src/pages/DetalhesIdeia.jsx:228-245 | filling fields never lowers the progress, and one more filled field always raises it |
| DetalhesIdeia.Aplicar | src/pages/DetalhesIdeia.jsx:249 | `{...definicao, [field]: value}` for each of the eight fields the form edits (the progress is recomputed, not edited) (a definition; AplicarSoOCampo states its meaning) |
| DetalhesIdeia.AplicarSoOCampo | src/pages/DetalhesIdeia.jsx:249 | a change sets exactly the named field, leaves every other field and the stored progress, and writing back what was read changes nothing |
| DetalhesIdeia.FormDefinicao.constructor | src/pages/DetalhesIdeia.jsx:460-472 | the form starts from the empty definition, unsaved |
| DetalhesIdeia.FormDefinicao.HandleChange | src/pages/DetalhesIdeia.jsx:248-253 | the new definition is the change applied with its progress recomputed, and it is marked unsaved |
| DetalhesIdeia.Triagem | src/pages/DetalhesIdeia.jsx:43-51 | a file is refused exactly when over 10 MiB (checked first) or not of an allowed type |
| DetalhesIdeia.TriagemExemplos | src/pages/DetalhesIdeia.jsx:36-51 | the limit is inclusive; size is reported before type |
| DetalhesIdeia.Envio | src/pages/DetalhesIdeia.jsx:43-60 | one pass of the upload loop on the bucket, the rows and the notice (a definition; EnvioPorCaso and the Lote lemmas state its meaning) |
| DetalhesIdeia.EnvioPorCaso | src/pages/DetalhesIdeia.jsx:43-60 | one file: a refused file changes nothing and gets its refusal; an accepted file's path is in storage afterwards exactly when the storage accepted the upload, and storage is unchanged otherwise; it is sent exactly when the path was free and both the upload and the metadata insert were accepted, and then its own row is appended under the next id; otherwise no row is added |
| DetalhesIdeia.EnviarArquivo | src/pages/DetalhesIdeia.jsx:43-60 | one pass of the loop: the bucket, the rows and the next id become those of the file step, case by case as for a single file, a refused upload leaving storage as it was |
| DetalhesIdeia.Lote | src/pages/DetalhesIdeia.jsx:42-61 | the files of the batch are taken one after another, one notice each |
| DetalhesIdeia.LoteAvisos | src/pages/DetalhesIdeia.jsx:42-61 | every file gets the notice of the same index: its refusal when the checks refuse it, a sent or failed notice otherwise |
| DetalhesIdeia.LoteObjetos | src/services/ideiasService.js:341-349 | after the batch the bucket holds what it held plus the path of every file that passed the checks and whose upload the storage accepted, and nothing else |
| DetalhesIdeia.LoteAnexos | src/services/ideiasService.js:352-368 | the batch only appends rows, one per sent file, on the idea, by the user, within the limit and of an allowed type |
| DetalhesIdeia.AnexosPasso | src/services/ideiasService.js:352-368 | one more file keeps the rows an extension by admissible rows, with the count and the next id moved by one exactly when it is sent |
| DetalhesIdeia.LoteIdsECaminhos | src/services/ideiasService.js:352-368 | the appended rows have consecutive ids from the next id, and each is stored under the path of a file whose upload was accepted |
| DetalhesIdeia.HandleUpload | src/pages/DetalhesIdeia.jsx:33-65 | the bucket, the rows and the notices are those of the files taken in order; each file gets the notice of its checks or of its upload; the bucket gains exactly the paths of the files that pass the checks and whose upload the storage accepts; one row per sent file, with consecutive ids, each admissible for the idea and the user |
| PaginaAvaliacao.FilaDeAvaliacao | src/pages/Avaliacao.jsx:19 | the queue is exactly the ideas ready for evaluation, in list order |
| PaginaAvaliacao.Submetida | src/pages/Avaliacao.jsx:30-38 | the payload carries the open idea, the evaluator and the scores, and a justification exactly when archiving |
| PaginaAvaliacao.FormAvaliacao.constructor | src/pages/Avaliacao.jsx:13-16 | nothing open, scores 3/3/3, Aprovada, empty justification |
| PaginaAvaliacao.FormAvaliacao.Abrir | src/pages/Avaliacao.jsx:102 | opens the idea |
| PaginaAvaliacao.FormAvaliacao.DefinirClareza | src/pages/Avaliacao.jsx:128-134 | sets the clarity score to a value of 1..5 |
| PaginaAvaliacao.FormAvaliacao.DefinirNegocio | src/pages/Avaliacao.jsx:145-151 | sets the business score to a value of 1..5 |
| PaginaAvaliacao.FormAvaliacao.DefinirTecnica | src/pages/Avaliacao.jsx:162-168 | sets the technical score to a value of 1..5 |
| PaginaAvaliacao.FormAvaliacao.DefinirDecisao | src/pages/Avaliacao.jsx:178-189 | sets the decision to approve or archive |
| PaginaAvaliacao.FormAvaliacao.DefinirJustificativa | src/pages/Avaliacao.jsx:199-201 | sets the justification text |
| PaginaAvaliacao.FormAvaliacao.Cancelar | src/pages/Avaliacao.jsx:212 | closes the form |
| PaginaAvaliacao.FormAvaliacao.HandleAvaliar | src/pages/Avaliacao.jsx:21-52 | nothing open does nothing; archiving with a blank justification writes nothing; otherwise the payload is submitted, a missing idea row is left as it is, and only a successful submission resets the form |
| PaginaAvaliacao.SubmetidaBemFormada | src/pages/Avaliacao.jsx:21-38 | what passes the guard is a well-formed evaluation: scores 1..5, a justification exactly when archiving, never blank |
| PaginaAvaliacao.ArquivarGuardaJustificativa | src/services/ideiasService.js:254-259 | archiving stores the justification as the rejection rationale; approving keeps the old one |
| PaginaIdeias.TagsDeConteudo | src/pages/Ideias.jsx:34-37 | the collected set is exactly the tags some idea carries |
| PaginaIdeias.InserirTexto | src/pages/Ideias.jsx:38 | insertion adds the one text to the elements |
| PaginaIdeias.InserirTextoOrdenada | src/pages/Ideias.jsx:38 | insertion into a sorted list keeps it sorted |
| PaginaIdeias.OrdenarTextos | src/pages/Ideias.jsx:38 | `sort()` of texts is sorted and a permutation |
| PaginaIdeias.TodasTags | src/pages/Ideias.jsx:33-39 | every tag of every idea, nothing else, each once, sorted |
| PaginaIdeias.AcrescentarTags | src/pages/Ideias.jsx:36 | adding one idea's tags to the set keeps it free of repeats, adds exactly those tags, and keeps the earlier ones first |
| PaginaIdeias.SemFiltrosPassaTudo | src/pages/Ideias.jsx:43-66 | with no search, status or tag, every idea is kept |
| PaginaIdeias.InserirPor | src/pages/Ideias.jsx:69-82 | insertion by key adds the one idea to the elements |
| PaginaIdeias.InserirPorOrdenada | src/pages/Ideias.jsx:69-82 | insertion by key into a sorted list keeps it sorted |
| PaginaIdeias.OrdenarPor | src/pages/Ideias.jsx:69-82 | sorting by key is sorted and a permutation |
| PaginaIdeias.InserirPorEstavel | src/pages/Ideias.jsx:69-82 | insertion by key puts the idea after every idea of the same key and reorders no two ideas of a key |
| PaginaIdeias.OrdenarPorEstavel | src/pages/Ideias.jsx:69-82 | the sort is stable: the ideas of any one key come out in the order they came in |
| PaginaIdeias.Chave | src/pages/Ideias.jsx:69-82 | the sort key of each of the four comparators (a definition; SentidoDaOrdem states its meaning) |
| PaginaIdeias.SentidoDaOrdem | src/pages/Ideias.jsx:69-82 | the four keys mean: newest first, oldest first, most votes first, most comments first, a missing count as 0 |
| PaginaIdeias.CasaBusca | src/pages/Ideias.jsx:48-53 | the search term occurs in the lower-cased title, description, source or segment, a missing source or segment matching nothing (a definition; Selecionar states its use) |
| PaginaIdeias.Passa | src/pages/Ideias.jsx:46-66 | an idea passes when each filter is off or it matches: search non-blank after trim, status equal, tag in its list (a definition; Selecionar and SemFiltrosPassaTudo state its meaning) |
| PaginaIdeias.Selecionar | src/pages/Ideias.jsx:43-66 | the three filters in turn keep exactly what passes all three |
| PaginaIdeias.IdeiasFiltradas | src/pages/Ideias.jsx:42-85 | exactly the ideas passing the filters, a permutation of a sub-multiset of the list, sorted by the chosen order, ideas of equal key in list order |
| PaginaIdeias.Filtros.constructor | src/pages/Ideias.jsx:27-30 | the filter bar starts at its defaults |
| PaginaIdeias.Filtros.TemFiltrosAtivos | src/pages/Ideias.jsx:94 | a filter is active exactly when the bar is off its defaults |
| PaginaIdeias.Filtros.LimparFiltros | src/pages/Ideias.jsx:87-92 | the bar returns to its defaults and no filter is active |
| PaginaIdeias.Filtros.Filtradas | src/pages/Ideias.jsx:42-94 | with no filter active, the page shows every idea, newest first |
| PaginaNovaIdeia.Aparadas | src/pages/NovaIdeia.jsx:27 | `map(tag => tag.trim())` trims each piece in place |
| PaginaNovaIdeia.ContaAparadas | src/pages/NovaIdeia.jsx:27 | dropping the empty trimmed pieces keeps one per non-blank piece |
| PaginaNovaIdeia.ParseTags | src/pages/NovaIdeia.jsx:27 | no tag is empty, holds a comma or has outer whitespace; tags are the non-blank pieces, trimmed, in typed order, one per non-blank piece; at most one more than the commas |
| PaginaNovaIdeia.ParseTagsConcat | src/pages/NovaIdeia.jsx:27 | a comma between two texts splits their tags |
| PaginaNovaIdeia.ParseTagsJuntar | src/pages/NovaIdeia.jsx:27 | clean tags joined with commas read back as the same tags |
| PaginaNovaIdeia.ParseTagsVazias | src/pages/NovaIdeia.jsx:27 | a blank or comma-only field gives no tags |
| PaginaNovaIdeia.Formulario | src/pages/NovaIdeia.jsx:30-37 | the five fields pass through unchanged, with the parsed tags |
| PaginaNovaIdeia.HandleSubmit | src/pages/NovaIdeia.jsx:20-40 | the built idea is created as a new idea in Geração with no owner, with the tags of the field linked up to the first refused tag insert; it succeeds with the new id exactly when none is refused |
| Dashboard.Calcular | src/pages/Dashboard.jsx:8-13 | the total is the number of ideas and each count is the number of ideas with that status |
| Dashboard.SomaDosIndicadores | src/pages/Dashboard.jsx:8-13 | the five counts add up to at most the total, exactly the total iff every idea has one of the five statuses |
| Dashboard.NovaIdeiaConta | src/pages/Dashboard.jsx:8-13 | a new idea in Geração adds one to the total and to Geração, and to nothing else |
| Dashboard.ConfereComContagem | src/pages/Dashboard.jsx:9-13 | the dashboard counts equal `contarPorStatus` (as intended) over the same statuses |

## Left out

- Network and database access, authentication, toasts, routing and rendering. The tables are in-memory fields. The backend's answers that steer control flow are boolean parameters. These are a tag insert, an evaluation insert, a storage upload, a storage removal or a metadata insert being refused.
- `Date.now()`, `Math.random().toString(36)` and the user id are parameters.
- Concurrency: the model is sequential. The check-then-write in `toggleVoto`, the insert-then-status-write in `avaliacoesService.criar`, and the blob-then-metadata writes of `upload`/`deletar` could interleave with other users.
- `comentariosService`, `checklistService`, `usuariosService`, the listing queries (`listar`, `buscarPorId`, `buscarPorStatus`, `buscarPorIdeia`), `getPublicUrl`, `download` and the definition form's `handleSalvar`. They are I/O with no rule of their own.
- The list reloads a page does after a write (`carregarAnexos`, `recarregar`, `buscarIdeia`) are left out. They change no table.
- Texto.Minuscula: maps only A–Z and the Latin-1 capitals U+00C0–U+00DE (except U+00D7). `toLowerCase` also maps other scripts and some characters to several characters; the model has no Unicode tables.
- Texto.LexMenorIgual: compares code points. `sort()` compares UTF-16 code units, which differ only for characters beyond U+FFFF.
- Texto.Trim: the whitespace set is that of ECMAScript. Nothing of JavaScript's string encoding is modelled.
- Servico.Banco.Criar: a refused tag insert leaves no tag whose id can be read, so `criar` throws there; the model returns `FalhaBackend` at that point, with the idea and the earlier links written. The errors of the tag lookup and of the link insert are ignored, as the code does. A duplicate link row (the same tag given twice) is modelled as added, not as refused by a key.
- Servico.Banco.Criar: a refused insert of the idea itself (`ideiaError`) is not modelled; the idea insert always succeeds.
- Servico.Banco.Votar: the refusal of a pair already voted, and with it the vote set, rest on a unique key on (ideia_id, usuario_id) in the database schema, which the code does not establish; the schema is not part of this model.
- Servico.RegistroNovo: the status Geração, the empty owner and rationale, and the creation time of a new idea are column defaults in the database, not values `criar` sends; the creation time is the parameter `agora`.
- Servico.ContarPorStatusComoEscrito: a status naming an inherited property of JavaScript objects (such as `constructor`) would also pass the `!== undefined` test and add a key holding NaN. The model's keys are only the six own keys.
- Servico.Banco.UploadAnexo: the stored object is a path in a set. The file contents and the `cacheControl` option are not modelled.
- DetalhesIdeia.Progresso: `Math.round(n / 8 * 100)` is computed with integers. It agrees with floating point for the 9 possible counts.
- PaginaIdeias.Chave: `created_at` is an integer timestamp rather than a parsed `Date`.
- `formatFileSize`, date formatting, drag and drop, and icon and colour choices are presentation.

## Findings

| source | as written | input that shows it | evidently intended | confidence | as-written member | corrected member |
|---|---|---|---|---|---|---|
| src/services/ideiasService.js:137-141 | any row whose status is already a key of `contagem` bumps that key, and `total` is one of the keys | one row whose status is the text `total`: the total becomes 2 for one row | `total` is the row count and only the five status keys are bumped | not executed; needs a status outside the five | Servico.ContarPorStatusComoEscrito, Servico.TotalInfladoPorStatusTotal | Servico.ContarPorStatus |
