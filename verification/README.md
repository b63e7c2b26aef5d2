# Company registry service — a Dafny model

This project models the core of a NestJS API that keeps a register of
companies (*empresas*). `EmpresaService` creates a company after checking
that its CNPJ (the Brazilian company registry number) is not taken, and then
fires a notification e-mail. It also lists the companies page by page,
newest first, finds one by CNPJ, merges a partial update into it and
removes it. `NotificacoesService` derives the recipient list from the
`NOTIFICATION_EMAILS` setting and builds the subject and HTML body of the
"new company" mail. It sends nothing when no recipient is configured and
swallows delivery failures.

The model is split into four modules and a helper module:

- `EmpresaEntity` (`empresa_entity.dfy`): the `Empresa` record and the
  constraints of its table. These are the unique CNPJ, the generated
  primary key, the 14-digit CNPJ pattern and the timestamps. The invariant
  `RepositorioValido` is stated here, together with the lemmas that insert,
  overwrite and remove preserve it.
- `Paginacao` (`paginacao.dfy`): clamping of page and page size
  (`Number(x) || default`, `Math.max`, `Math.min`), the offset, `Math.ceil`
  of the page count, the `criadoEm DESC` order and the slice a page covers.
- `Notificacoes` (`notificacoes.dfy`): JavaScript `split(',')`, `trim()`
  and `filter(Boolean)`; the recipients, subject and body; and the
  `NotificacoesService` class. Its `envios` history records every call made
  to the mail transport.
- `EmpresaServico` (`empresa_service.dfy`): the `EmpresaService` class.
  The repository is a `seq<Empresa>` field in insertion order, with the
  next generated id and an abstract clock. `criar`, `atualizar` and
  `excluir` are methods that update it. `buscarTodas` and
  `encontrarEmpresaPorCnpj` are functions of the repository contents.
- `Wrappers` (`wrappers.dfy`): `Option` and `Result`.

The database, the clock, the environment and the mail transport are not
visible to the service, so they become parameters:

- `falhaBanco` says that the listing query (in `buscarTodas`) or the save or
  removal (in `criar`, `atualizar` and `excluir`) throws. For `atualizar`
  and `excluir` it carries the driver's message, because that message
  appears in the error text. The lookup by CNPJ that precedes them is
  assumed to answer.
- `falhaEnvio` says that `sendMail` throws.
- The `emails` constant of `NotificacoesService` is the value of
  `NOTIFICATION_EMAILS`.
- Every save stamps the record with the next tick of `relogio`.

Where the declared rules and the code differ, the model follows the code.
The entity declares `class-validator` rules (non-empty text, a 14-digit
CNPJ), but no validation pipe is installed. The service therefore accepts
any strings. The rules are kept as the separate predicates `EmpresaValida`
and `CnpjValido`, and no operation requires them. Only the NOT NULL
`endereco` column and the unique CNPJ column are enforced, because the
database itself enforces them.

## Model

| member | source | states |
|---|---|---|
| EmpresaEntity.IndicePorCnpj | src/empresa/empresa.service.ts:26-28 | the repository's `findOne({ where: { cnpj } })`: the position of the first record with that CNPJ, and None exactly when no record has it |
| EmpresaEntity.IndicePorCnpjUnico | src/empresa/empresa.entity.ts:20-24 | under the unique CNPJ column, the record found is the one record carrying that CNPJ |
| EmpresaEntity.CnpjsUnicosAposInsercao | src/empresa/empresa.entity.ts:20 | appending a record whose CNPJ is not stored keeps the CNPJs unique |
| EmpresaEntity.ValidoAposInsercao | src/empresa/empresa.service.ts:39-40 | saving a new record with a fresh CNPJ, the next generated id and the current tick as both timestamps keeps CNPJs and ids unique and `criadoEm <= alteradoEm <= clock` |
| EmpresaEntity.ValidoAposSubstituicao | src/empresa/empresa.service.ts:144-145 | overwriting a record with its id and creation time kept, a new `alteradoEm` and a CNPJ no other record holds keeps the repository valid |
| EmpresaEntity.ValidoAposRemocao | src/empresa/empresa.service.ts:165 | removing one record keeps the repository valid |
| EmpresaEntity.RemocaoPorCnpj | src/empresa/empresa.service.ts:164-165 | after removing the record at a position, the remaining records are exactly those with a different CNPJ |
| Paginacao.ClampPagina | src/empresa/empresa.service.ts:90 | the page served is at least 1; a requested page of 1 or more is kept; absent, zero, NaN or negative gives 1 |
| Paginacao.ClampLimite | src/empresa/empresa.service.ts:91 | the page size is within [1, 100]; a size in range is kept; above 100 gives 100; negative gives 1; absent, zero or NaN gives 10 |
| Paginacao.OuPadrao | src/empresa/empresa.service.ts:90-91 | `Number(x) \|\| padrao`: an absent, NaN or zero value gives the default, any other value is kept |
| Paginacao.Pule | src/empresa/empresa.service.ts:93 | the offset is 0 on page 1 and at least one page's worth on any later page |
| Paginacao.TotalPaginas | src/empresa/empresa.service.ts:101 | `Math.ceil(total / limite)`: the fewest pages holding all records; zero exactly when there are no records |
| Paginacao.InserirOrdenado | src/empresa/empresa.service.ts:98 | inserting into a newest-first sequence keeps it newest first and adds exactly that record |
| Paginacao.DecrescenteComCabeca | src/empresa/empresa.service.ts:98 | a record no older than every record of a newest-first sequence may lead it |
| Paginacao.Ordenar | src/empresa/empresa.service.ts:98 | `order: { criadoEm: 'DESC' }`: the result is newest first and a permutation of the records |
| Paginacao.Fatia | src/empresa/empresa.service.ts:95-97 | `skip`/`take`: at most `limite` records, the ones starting at the offset, in order |
| Paginacao.PaginasPrefixo | src/empresa/empresa.service.ts:93-101 | pages 1 to k, put one after the other, are the first `k * limite` records |
| Paginacao.PaginaSeguinte | src/empresa/empresa.service.ts:93-97 | the records before page k's offset, followed by page k, are the records before the next page's offset |
| Paginacao.PaginasCobremTudo | src/empresa/empresa.service.ts:93-101 | walking pages 1 to `totalPaginas` yields every record exactly once, in order |
| Notificacoes.Dividir | src/notificacoes/notificacoes.service.ts:12-13 | `split(',')` gives at least one piece and no piece contains the separator |
| Notificacoes.JuntarDividir | src/notificacoes/notificacoes.service.ts:12-13 | joining the pieces of a split with the separator gives back the original string |
| Notificacoes.DividirPrefixo | src/notificacoes/notificacoes.service.ts:12-13 | splitting `p + t`, where `p` has no separator, glues `p` to the first piece of `t` |
| Notificacoes.DividirJuntar | src/notificacoes/notificacoes.service.ts:12-13 | splitting a join of separator-free pieces gives back the pieces |
| Notificacoes.ApararInicio | src/notificacoes/notificacoes.service.ts:14 | the leading part of `trim()`: a suffix of the input; everything dropped is white space; the result does not start with white space |
| Notificacoes.ApararFim | src/notificacoes/notificacoes.service.ts:14 | the trailing part of `trim()`: a prefix of the input; everything dropped is white space; the result does not end with white space |
| Notificacoes.Aparar | src/notificacoes/notificacoes.service.ts:14 | `trim()`: neither end of the result is white space, and the result has no character the input lacks |
| Notificacoes.ApararRecorta | src/notificacoes/notificacoes.service.ts:14 | `trim()` returns one contiguous piece of its input, and everything outside that piece is white space |
| Notificacoes.ApararSemEspacos | src/notificacoes/notificacoes.service.ts:14 | `trim()` leaves a string with clean ends unchanged |
| Notificacoes.ApararVazio | src/notificacoes/notificacoes.service.ts:14-15 | `trim()` gives the empty string exactly when the input is all white space |
| Notificacoes.ApararTodos | src/notificacoes/notificacoes.service.ts:14 | `.map(s => s.trim())`: one trimmed piece per piece, at the same position |
| Notificacoes.SemVazios | src/notificacoes/notificacoes.service.ts:15 | `filter(Boolean)`: a string is kept exactly when it is a non-empty string of the input |
| Notificacoes.SemVaziosConcatenacao | src/notificacoes/notificacoes.service.ts:15 | the filter keeps the configured order: filtering a concatenation is concatenating the filtered parts |
| Notificacoes.SemVaziosIdentidade | src/notificacoes/notificacoes.service.ts:15 | `filter(Boolean)` leaves a list with no empty strings unchanged |
| Notificacoes.Destinatarios | src/notificacoes/notificacoes.service.ts:12-15 | every recipient is non-empty, has clean ends and contains no comma |
| Notificacoes.AparadasLimpas | src/notificacoes/notificacoes.service.ts:13-14 | trimming comma-free pieces leaves only clean addresses or empty strings |
| Notificacoes.DestinatariosDeJuncao | src/notificacoes/notificacoes.service.ts:12-15 | a setting joined from comma-free pieces gives those pieces, trimmed, without the empty ones, in order |
| Notificacoes.ApararTodosIdentidade | src/notificacoes/notificacoes.service.ts:14 | trimming clean addresses changes none of them |
| Notificacoes.DestinatariosDeLista | src/notificacoes/notificacoes.service.ts:12-15 | configuring clean addresses joined by commas gives exactly that list, in order |
| Notificacoes.DestinatariosAusentes | src/notificacoes/notificacoes.service.ts:12 | an absent or empty setting gives no recipient |
| Notificacoes.DestinatarioUnico | src/notificacoes/testes/notificacoes.service.spec.ts:33-52 | the single address `test@example.com` gives that one recipient |
| Notificacoes.DestinatariosSeparadosPorEspaco | src/notificacoes/notificacoes.service.ts:12-15 | two clean addresses written as `a, b` give exactly the recipients `[a, b]`, with the space after the comma trimmed away |
| Notificacoes.JuntarComEspaco | src/notificacoes/notificacoes.service.ts:12-13 | the setting `a, b` is the comma join of `a` and ` b`, and neither piece holds a comma |
| Notificacoes.ApararEspacoInicial | src/notificacoes/notificacoes.service.ts:14 | `trim()` removes a space in front of a clean address |
| Notificacoes.Assunto | src/notificacoes/notificacoes.service.ts:24 | the subject is the fixed prefix `Nova empresa cadastrada: ` followed by exactly the company's `nome` |
| Notificacoes.ConcatenarContem | src/notificacoes/notificacoes.service.ts:25-33 | every fixed piece and every interpolated field of the template occurs in the rendered text |
| Notificacoes.CorpoListaCampos | src/notificacoes/notificacoes.service.ts:25-33 | the HTML body (`CorpoHtml`) contains the announcement line and the company's name, CNPJ, trade name and address |
| Notificacoes.MensagemNovaEmpresaCampos | src/notificacoes/notificacoes.service.ts:41-45 | the mail (`MensagemNovaEmpresa`) goes to exactly the given recipients, its subject is the prefix followed by `nome`, and its body lists the four fields |
| Notificacoes.EnviosDaNotificacao | src/notificacoes/notificacoes.service.ts:17-49 | no mail without recipients; otherwise exactly one mail, to all recipients, with that subject and body; delivered unless the transport throws |
| Notificacoes.NotificacoesService.EnviarNotificacaoCriacaoEmpresa | src/notificacoes/notificacoes.service.ts:11-50 | the call always returns normally, and appends exactly the transport calls `EnviosDaNotificacao` describes |
| EmpresaServico.EncontrarEmpresaPorCnpj | src/empresa/empresa.service.ts:182-202 | for a lookup query that answers: fails exactly when no record has the CNPJ, with the "não encontrada" Not Found message; otherwise returns a stored record with that CNPJ, and under unique CNPJs the only one |
| EmpresaServico.MapearRespostaEncontrarEmpresaCnpj | src/empresa/empresa.service.ts:204-214 | the lookup response carries all seven columns of the record unchanged |
| EmpresaServico.MapearRespostaBuscarTodas | src/empresa/empresa.service.ts:128-136 | the list item shows the record's CNPJ, trade name, address and both timestamps |
| EmpresaServico.ItemOmiteIdENome | src/empresa/empresa.service.ts:128-136 | the list item hides the id and the legal name: records differing only there are listed alike |
| EmpresaServico.ItensDaPagina | src/empresa/empresa.service.ts:95-105 | the page's items are the list projection of the ordered records from the offset, at most `limite` of them, still newest first |
| EmpresaServico.MontarListagem | src/empresa/empresa.service.ts:93-118 | the response's total, page count, items, next and previous flags and numbers, message and status |
| EmpresaServico.PaginasCheias | src/empresa/empresa.service.ts:101-114 | while `existeProximaPagina` holds the page is full; the last page is non-empty; a page past the last one is empty |
| EmpresaServico.BuscarTodas | src/empresa/empresa.service.ts:68-126 | a failing query gives the generic error; otherwise the listing for the clamped page and size, never more than 100 items |
| EmpresaServico.ConsultaPadrao | src/empresa/empresa.service.ts:69-70 | the default query serves page 1 with the ten newest records (or all of them), and nothing precedes it |
| EmpresaServico.ListagemVazia | src/empresa/empresa.service.ts:101-115 | on an empty repository every page is empty, there are no pages and there is no next page |
| EmpresaServico.Mesclar | src/empresa/empresa.service.ts:144 | `Object.assign`: each field present in the update overwrites the stored one, every other field and the id and timestamps are kept |
| EmpresaServico.MesclarIdempotente | src/empresa/empresa.service.ts:144 | merging the same update twice is merging it once |
| EmpresaServico.EmpresaService.constructor | src/empresa/empresa.service.ts:14-18 | the service starts with an empty, valid repository |
| EmpresaServico.EmpresaService.Criar | src/empresa/empresa.service.ts:22-66 | a stored CNPJ gives Conflict; a missing address or failing save gives the generic error; success exactly otherwise; on failure nothing changes and nothing is sent; on success the record is appended with the next id and tick, exactly one notification is requested, and the repository stays valid |
| EmpresaServico.EmpresaService.Atualizar | src/empresa/empresa.service.ts:138-160 | every failure is Not Found with the detail text (missing company, CNPJ taken by another, failing save) and changes nothing; success overwrites exactly the found record with the merged fields and a new `alteradoEm`; the repository stays valid |
| EmpresaServico.EmpresaService.Excluir | src/empresa/empresa.service.ts:162-180 | a missing company or failing removal is Not Found and removes nothing; success removes exactly that record and leaves every record with another CNPJ; the repository stays valid |
| EmpresaServico.CriacaoDuplicada | src/empresa/testes/empresa.service.spec.ts:96-168 | on a fresh service, a first create succeeds and a second create with the same CNPJ is a Conflict, as those tests expect; beyond them (the tests mock the notifier), one record with equal timestamps is stored and, for a setting `a, b`, one delivered mail goes to both addresses by the recipient rule of notificacoes.service.ts |

## Left out

- Asynchrony. `criar` does not await the notification. The model runs it to completion inside `Criar`. Its failure cannot reach the caller either way.
- The race between the CNPJ check and the insert in `criar`. With concurrent requests the database's unique index would reject the second insert. The model runs one call at a time.
- A failing lookup by CNPJ (`findOne` throwing). `encontrarEmpresaPorCnpj` would rethrow the driver's error. `criar` would give the 500 wrapper even for a stored CNPJ. `atualizar` and `excluir` would give Not Found with the driver's text. `EncontrarEmpresaPorCnpj`, `EmpresaService.Criar`, `EmpresaService.Atualizar` and `EmpresaService.Excluir` model a lookup that always answers.
- EmpresaServico.EmpresaService.Criar: gives ids without gaps (the next id is `proximoId`, unchanged by a failed create). A real sequence also consumes a value on a failed insert, so stored ids can have gaps. Only distinct ids are promised by the primary key.
- Logging (`Logger` and `console.log`). It has no effect on results.
- The text of the generic error. `criar` and `buscarTodas` wrap any failure in a 500 error whose message embeds the driver's text. The model returns `Interno` without that text.
- Real dates. `criadoEm` and `alteradoEm` are ticks of an abstract clock that every save advances.
- `alteradoEm` on a save that changes nothing. TypeORM skips the UPDATE and keeps the old timestamp. `EmpresaService.Atualizar` always stamps the new tick.
- Float coercion. `Number(x)` for non-integer or non-numeric strings is modelled on integers. A NaN request is `None`. A fractional page is not modelled.
- The order of records created at the same instant. The database's order among equal `criadoEm` values is unspecified. The model keeps insertion order.
- Partial create data. `data` is a `Partial<Empresa>`. Only a missing `endereco` is modelled, as a failing save. A missing `nome`, `nomeFantasia` or `cnpj` is not modelled. With an undefined `cnpj`, TypeORM's `findOne` would match any row.
- The entity types `cnpj` as `number` while the service and the controller pass strings. The model uses strings.
- The validation decorators on the entity and the DTOs. No validation pipe is installed, so they are not applied. `CnpjValido` and `EmpresaValida` state them but are not required.
- The driver's exact message when an update breaks the unique CNPJ column. It is stood in for by `DetalheCnpjDuplicado`.
- The environment. `NOTIFICATION_EMAILS` is read on each call in the source. It is a constant of `NotificacoesService` here.
- The mail transport. `sendMail` is recorded as an `Envio` in the ghost history instead of being performed.
- The controller, the modules and `main.ts`. These cover routing, HTTP status codes and bootstrap.
