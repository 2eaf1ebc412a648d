# CRM back end: client, opportunity and user services in Dafny

This project models the service layer of a small CRM back end (Spring Boot,
JPA). Three services each sit over a key→record repository:

- `ClienteService` creates, updates and deletes clients. It normalises the
  CPF/CNPJ documents to digits and keeps them mutually exclusive. It keeps
  email, phone and document unique across clients. Update merges field by
  field: a null field keeps the stored value, and a value overwrites it.
  An empty email, phone or photo clears the field. A blank name keeps the
  stored name, and an empty CPF or CNPJ keeps the stored documents.
- `OportunidadeService` creates, updates and deletes sales opportunities.
  Each opportunity refers to one client and one user. It also moves an
  opportunity between the five statuses `NOVA`, `EM_NEGOCIACAO`, `GANHA`,
  `PERDIDA` and `ARQUIVADA`, through a guard.
- `UsuarioService` registers a user under an email not yet in use, compared
  ignoring case. It also overwrites a stored user's fields.

Modules:

- `Wrappers` (wrappers.dfy) holds `Option` and `Result`; `Http` holds the
  three HTTP statuses the services raise.
- `Text` (text.dfy) models `replaceAll("[^0-9]", "")`, `String.trim()`,
  `StringUtils.hasText` and case-insensitive comparison.
- `Clientes` (clientes.dfy), `Oportunidades` (oportunidades.dfy) and
  `Usuarios` (usuarios.dfy) each hold one service:
  - the entity and request datatypes;
  - pure specification functions for every operation (`Created`,
    `Updated`, `Saved`, `Patched`, `Replaced`, `StatusChanged`, …);
  - lemmas about those functions;
  - a class with the repository as a `map<int, …>` field and `nextId`
    standing for the identity column.

  The class methods follow the Java code statement by statement and are
  proved equal to the specification functions. Every error leaves the
  repository unchanged. The client service's writes, and the opportunity
  service's other than `update(Oportunidade)`, are `@Transactional` and
  roll back. `UsuarioService` and `update(Oportunidade)` are not, but
  neither raises an error after its only write.

The client service keeps an invariant, `Clientes.Consistent`:

- every record holds exactly one document, with the person kind that names it;
- no finder can confuse two records.

`create` and `update` are proved to preserve it (`Clientes.CreateKeepsConsistent`
and `Clientes.UpdateKeepsConsistent`, through `Clientes.FreeValuesDistinct`,
`Clientes.CreatedIsFree`, `Clientes.UpdatedIsFree` and
`Clientes.OwnValueNotTaken`). Separately, `Clientes.FinderMatchesAtMostOne`
shows that under the invariant each single-result finder matches at most
one client.

The opportunity service keeps the references resolvable
(`Oportunidades.RefsResolve`), relative to the client and user ids passed
in.

The model follows the code as written, including where it is laxer than
one might expect:

- **Status guard.** Won, lost and archived are not final. The code only
  forbids `GANHA→NOVA`, `GANHA→PERDIDA`, and the moves out of `NOVA` and
  `EM_NEGOCIACAO` that it does not list. `Oportunidades.TerminalTargets`
  is the lifecycle in which they are final, and
  `Oportunidades.GuardWeakerThanTerminal` states how the guard differs.
- **Lead score.** `leadScore` is copied unchecked; the services enforce no range.
- **Missing reference on save.** A null reference or id is `BAD_REQUEST`;
  only an id that does not resolve is `NOT_FOUND`.
- **Error statuses.** A duplicate is `BAD_REQUEST`, not a conflict status.

## Model

| member | source | states |
|---|---|---|
| Text.OnlyDigits | src/main/java/com/generation/crm_backend/service/ClienteService.java:171-172 | the digit filter yields only ASCII digits and never lengthens its input |
| Text.OnlyDigitsCounts | src/main/java/com/generation/crm_backend/service/ClienteService.java:171-172 | every digit survives exactly as often as it occurs, every other character is dropped |
| Text.OnlyDigitsAppend | src/main/java/com/generation/crm_backend/service/ClienteService.java:171-172 | the filter keeps order: filtering a concatenation concatenates the filtered parts |
| Text.OnlyDigitsFixes | src/main/java/com/generation/crm_backend/service/ClienteService.java:171-172 | the filter leaves a string unchanged exactly when it is all digits |
| Text.OnlyDigitsIdempotent | src/main/java/com/generation/crm_backend/service/ClienteService.java:171-172 | filtering twice is filtering once |
| Text.OnlyDigitsOfNonDigits | src/main/java/com/generation/crm_backend/service/ClienteService.java:174-177 | a document with no digit normalises to the empty string, which then counts as absent |
| Text.TrimStartDropsPrefix | src/main/java/com/generation/crm_backend/service/ClienteService.java:203 | the leading half of `trim()` removes a prefix of characters `<= ' '` and stops at one above it |
| Text.TrimEndDropsSuffix | src/main/java/com/generation/crm_backend/service/ClienteService.java:207 | the trailing half of `trim()` removes a suffix of characters `<= ' '` and stops at one above it |
| Text.TrimIsMiddle | src/main/java/com/generation/crm_backend/service/ClienteService.java:207 | `trim()` keeps a contiguous middle slice; everything removed is `<= ' '` and the result starts and ends above `' '` |
| Text.TrimKeepsDigits | src/main/java/com/generation/crm_backend/service/ClienteService.java:215 | trimming a phone before stripping it to digits gives the same digits as stripping alone |
| Text.TrimStartKeepsDigits | src/main/java/com/generation/crm_backend/service/ClienteService.java:276 | removing leading blanks removes no digit |
| Text.TrimEndKeepsDigits | src/main/java/com/generation/crm_backend/service/ClienteService.java:276 | removing trailing blanks removes no digit |
| Text.TrimOfDigits | src/main/java/com/generation/crm_backend/service/ClienteService.java:174-177 | a digit string has nothing to trim, so the emptiness test after trimming is a test on the digits |
| Text.TrimStart | src/main/java/com/generation/crm_backend/service/ClienteService.java:203 | definition: leading characters `<= ' '` removed, as the first half of `String.trim()`; properties in `Text.TrimStartDropsPrefix` |
| Text.TrimEnd | src/main/java/com/generation/crm_backend/service/ClienteService.java:203 | definition: trailing characters `<= ' '` removed, as the second half of `String.trim()`; properties in `Text.TrimEndDropsSuffix` |
| Text.Trim | src/main/java/com/generation/crm_backend/service/ClienteService.java:203 | definition: `String.trim()` as both halves; properties in `Text.TrimIsMiddle`, `Text.TrimKeepsDigits` and `Text.TrimOfDigits` |
| Text.IsWhitespace | src/main/java/com/generation/crm_backend/service/ClienteService.java:200 | definition: the code points `Character.isWhitespace` accepts, namely 9-13, 28-32, U+1680, U+2000-U+2006, U+2008-U+200A, U+2028, U+2029, U+205F and U+3000; the no-break spaces are excluded |
| Text.HasText | src/main/java/com/generation/crm_backend/service/ClienteService.java:200 | definition: `StringUtils.hasText`, not null and holding a character that is not whitespace; related to `trim()` by `Text.BlankTrimsToEmpty` |
| Text.WhitespaceAgainstTrim | src/main/java/com/generation/crm_backend/service/ClienteService.java:200-203 | ASCII whitespace is all `<= ' '`; a character `<= ' '` that is not whitespace is a control below 9 or between 14 and 27; the no-break spaces are not whitespace |
| Text.TrimStartOfBlank | src/main/java/com/generation/crm_backend/service/ClienteService.java:203 | a string made only of characters `<= ' '` trims to nothing from the front |
| Text.BlankTrimsToEmpty | src/main/java/com/generation/crm_backend/service/ClienteService.java:200-203 | an ASCII string without text trims to empty; the converse fails, as U+0001 has text yet trims to empty |
| Text.Lower | src/main/java/com/generation/crm_backend/service/ClienteService.java:265 | the case folding behind `equalsIgnoreCase` keeps the length; each upper-case ASCII letter becomes its lower-case partner, no upper-case letter is left, and every other character is unchanged |
| Text.SameIgnoringCaseEquivalence | src/main/java/com/generation/crm_backend/service/ClienteService.java:265 | comparing ignoring case is reflexive, symmetric and transitive; a string matches its lower-cased form, and lower-casing is idempotent |
| Clientes.DocumentValue | src/main/java/com/generation/crm_backend/service/ClienteService.java:171-177 | a prepared document is present exactly when the raw one holds a digit, and is then its digits |
| Clientes.ValidateDocuments | src/main/java/com/generation/crm_backend/service/ClienteService.java:170-191 | on create, neither document is `MissingDocument` (checked first); both is `BothDocuments`; success exactly otherwise, with each present document digit-normalised |
| Clientes.CreateError | src/main/java/com/generation/crm_backend/service/ClienteService.java:195-236 | when no check fails, the documents validated and the name has text |
| Clientes.Created | src/main/java/com/generation/crm_backend/service/ClienteService.java:193-241 | no document is `MissingDocument`, both is `BothDocuments`, valid documents with a blank name is `BlankName`; every error is `BAD_REQUEST`; a created record holds exactly one document with the matching person kind, stamped with the given time |
| Clientes.CreateDuplicateOrder | src/main/java/com/generation/crm_backend/service/ClienteService.java:205-233 | once documents and name pass, the error is the first duplicate found in the order email, phone, CPF, CNPJ, and success exactly when none is |
| Clientes.CreateSucceedsIff | src/main/java/com/generation/crm_backend/service/ClienteService.java:195-236 | create succeeds exactly when one document is given, the name has text, and no other client holds the trimmed email, the digit phone or the document |
| Clientes.CreateDerivesDocument | src/main/java/com/generation/crm_backend/service/ClienteService.java:222-236 | a CPF gives `FISICA` with no CNPJ; a CNPJ gives `JURIDICA` with no CPF |
| Clientes.CreateIgnoresTipoPessoa | src/main/java/com/generation/crm_backend/service/ClienteService.java:222-236 | the request's own `tipoPessoa` never changes the outcome of create |
| Clientes.CreateFields | src/main/java/com/generation/crm_backend/service/ClienteService.java:203-238 | a created record has the trimmed name and email, the digit phone, and the photo and score as given |
| Clientes.FinderMatchesAtMostOne | src/main/java/com/generation/crm_backend/repository/ClienteRepository.java:15-23 | under the invariant, a client found by any of the single-result finders is the only client that finder matches |
| Clientes.OwnValueNotTaken | src/main/java/com/generation/crm_backend/service/ClienteService.java:265-270 | under the invariant, a value matching the client's own stored value is held by no other client |
| Clientes.FreeValuesDistinct | src/main/java/com/generation/crm_backend/service/ClienteService.java:206-236 | a record whose unique values no finder matches in another record is distinct from it both ways |
| Clientes.CreatedIsFree | src/main/java/com/generation/crm_backend/service/ClienteService.java:206-236 | no finder confuses a created record with any stored one |
| Clientes.CreateKeepsConsistent | src/main/java/com/generation/crm_backend/service/ClienteService.java:193-241 | saving a created record under a fresh id preserves the repository invariant |
| Clientes.UpdateError | src/main/java/com/generation/crm_backend/service/ClienteService.java:243-310 | when no check fails, the id exists and the documents validated |
| Clientes.Updated | src/main/java/com/generation/crm_backend/service/ClienteService.java:243-317 | an absent id is `ClienteNotFound`; both documents on an existing id is `BothDocuments`; an error is `NOT_FOUND` exactly when the id is absent, otherwise `BAD_REQUEST` |
| Clientes.UpdateDuplicateOrder | src/main/java/com/generation/crm_backend/service/ClienteService.java:260-305 | once the id and documents pass, the error is the first conflict found in the order email, phone, then the given document, and success exactly when none is |
| Clientes.UpdateMergePolicy | src/main/java/com/generation/crm_backend/service/ClienteService.java:252-314 | null keeps, blank name keeps, empty photo/email/phone clears, a value overwrites (trimmed or digit-normalised), null score keeps, creation time never changes |
| Clientes.UpdateDocuments | src/main/java/com/generation/crm_backend/service/ClienteService.java:290-310 | no document keeps CPF, CNPJ and kind; a CPF sets `FISICA` and clears the CNPJ; a CNPJ sets `JURIDICA` and clears the CPF |
| Clientes.UpdateClearsWithoutLookup | src/main/java/com/generation/crm_backend/service/ClienteService.java:260-288 | an email empty once trimmed never raises `DuplicateEmail`, and, independently, a phone with no digits never raises `DuplicateTelefone` |
| Clientes.ClearedEmailNeverConflicts | src/main/java/com/generation/crm_backend/service/ClienteService.java:260-263 | an email that trims to empty is cleared without a lookup |
| Clientes.ClearedTelefoneNeverConflicts | src/main/java/com/generation/crm_backend/service/ClienteService.java:275-278 | a phone with no digits is cleared without a lookup |
| Clientes.MergedValueFree | src/main/java/com/generation/crm_backend/service/ClienteService.java:260-310 | under the invariant, a unique value kept or written by a passing check is held by no other client |
| Clientes.UpdateSucceedsIff | src/main/java/com/generation/crm_backend/service/ClienteService.java:260-310 | under the invariant, update of an existing id fails exactly on both documents or a new value another client holds |
| Clientes.SkippedLookupHarmless | src/main/java/com/generation/crm_backend/service/ClienteService.java:265-270 | under the invariant, skipping the lookup for a resubmitted value changes no outcome |
| Clientes.UpdatedIsFree | src/main/java/com/generation/crm_backend/service/ClienteService.java:252-314 | no finder confuses an updated record with any other stored one |
| Clientes.UpdateKeepsConsistent | src/main/java/com/generation/crm_backend/service/ClienteService.java:243-317 | saving an updated record preserves the repository invariant |
| Clientes.ClienteService.Create | src/main/java/com/generation/crm_backend/service/ClienteService.java:193-241 | on error the repository and the id counter are unchanged; on success the record is inserted under a fresh id and the counter advances by one; the invariant holds after |
| Clientes.ClienteService.Update | src/main/java/com/generation/crm_backend/service/ClienteService.java:243-317 | returns `Updated` and saves it over the same id, or changes nothing; the invariant holds after |
| Clientes.ClienteService.SetContact | src/main/java/com/generation/crm_backend/service/ClienteService.java:252-288 | the name, photo, email and phone steps fail exactly on an email then a phone conflict, else give the merged contact fields |
| Clientes.ClienteService.SetDocuments | src/main/java/com/generation/crm_backend/service/ClienteService.java:290-310 | the CPF step, or else the CNPJ step, fails exactly on a conflict, else replaces the document pair and kind |
| Clientes.Taken | src/main/java/com/generation/crm_backend/repository/ClienteRepository.java:15-23 | definition: a single-result finder returns a client other than the one being updated, with email and phone compared ignoring case and documents exactly; `Clientes.FinderMatchesAtMostOne` shows it returns at most one under the invariant |
| Clientes.ClienteService.Delete | src/main/java/com/generation/crm_backend/service/ClienteService.java:319-326 | an absent id is `ClienteNotFound`; otherwise only that id is removed |
| Oportunidades.StatusRejection | src/main/java/com/generation/crm_backend/service/OportunidadeService.java:177-195 | every rejection of the status guard is a `BAD_REQUEST` |
| Oportunidades.GuardMatchesTable | src/main/java/com/generation/crm_backend/service/OportunidadeService.java:177-195 | the guard passes a pair exactly when the table lists it: `NOVA`→{`EM_NEGOCIACAO`,`PERDIDA`}, `EM_NEGOCIACAO`→{`GANHA`,`PERDIDA`,`ARQUIVADA`}, `GANHA`→ all but `NOVA`,`PERDIDA`, `PERDIDA`/`ARQUIVADA`→ all |
| Oportunidades.GuardWeakerThanTerminal | src/main/java/com/generation/crm_backend/service/OportunidadeService.java:177-195 | the guard allows all a terminal-state lifecycle allows, agrees with it from `NOVA` and `EM_NEGOCIACAO`, and also lets won, lost and archived move on |
| Oportunidades.GuardConsequences | src/main/java/com/generation/crm_backend/service/OportunidadeService.java:177-195 | `GANHA→PERDIDA`, `GANHA→NOVA`, `NOVA→GANHA`, `NOVA→NOVA`, `EM_NEGOCIACAO→EM_NEGOCIACAO` are refused; `EM_NEGOCIACAO→ARQUIVADA`, `GANHA→GANHA`, `ARQUIVADA→EM_NEGOCIACAO`, `PERDIDA→NOVA` pass |
| Oportunidades.SelfTransitions | src/main/java/com/generation/crm_backend/service/OportunidadeService.java:185-195 | staying in the same status is refused exactly for `NOVA` and `EM_NEGOCIACAO` |
| Oportunidades.Reassign | src/main/java/com/generation/crm_backend/service/OportunidadeService.java:137-157 | a reference fails exactly when it names a different id that does not exist; otherwise the result is the stored id or the given existing one |
| Oportunidades.Saved | src/main/java/com/generation/crm_backend/service/OportunidadeService.java:61-95 | a null client reference is `ClienteRequired` and an unknown client `ClienteNotFound`, both before the user; with the client resolved, a null user reference is `UsuarioRequired` and an unknown user `UsuarioNotFound`; an error is `BAD_REQUEST` exactly when the first reference checked is null, never a server error; success exactly when both resolve; status defaults to `NOVA` and date to today |
| Oportunidades.SaveKeepsRefs | src/main/java/com/generation/crm_backend/service/OportunidadeService.java:75-95 | saving keeps every stored reference resolvable |
| Oportunidades.Patched | src/main/java/com/generation/crm_backend/service/OportunidadeService.java:119-159 | an absent id is `OportunidadeNotFound`; a changed client id that does not exist is `ClienteNotFound`, then a changed user id that does not exist `UsuarioNotFound`; every error is `NOT_FOUND`; success implies the id exists |
| Oportunidades.PatchMergePolicy | src/main/java/com/generation/crm_backend/service/OportunidadeService.java:124-157 | null fields keep and non-null overwrite title, description, value and status; the date never changes; null references keep, given ones are taken |
| Oportunidades.PatchSucceedsIff | src/main/java/com/generation/crm_backend/service/OportunidadeService.java:137-157 | the partial update fails only on a changed client or user id that does not exist |
| Oportunidades.PatchKeepsRefs | src/main/java/com/generation/crm_backend/service/OportunidadeService.java:137-159 | the partial update keeps every stored reference resolvable |
| Oportunidades.PatchBypassesGuard | src/main/java/com/generation/crm_backend/service/OportunidadeService.java:133-135 | the partial update sets a won opportunity back to `NOVA`, which the status change refuses |
| Oportunidades.Replaced | src/main/java/com/generation/crm_backend/service/OportunidadeService.java:99-116 | a null or absent id is `OportunidadeNotFound`; then a null client reference is `NullReference` and an unknown client `ClienteNotFound`; then the same for the user with `NullReference` and `UsuarioNotFound`; an error is a server error exactly when it is `NullReference`; success exactly when the id exists and both references resolve; the input then replaces the record |
| Oportunidades.ReplaceBypassesGuard | src/main/java/com/generation/crm_backend/service/OportunidadeService.java:112-115 | the whole-record update stores any status whatever |
| Oportunidades.ReplaceKeepsRefs | src/main/java/com/generation/crm_backend/service/OportunidadeService.java:106-115 | the whole-record update keeps every stored reference resolvable |
| Oportunidades.StatusChanged | src/main/java/com/generation/crm_backend/service/OportunidadeService.java:172-198 | an absent id is `OportunidadeNotFound`; success exactly when the table allows the move, and a refused move fails with the guard's own error; an error is `NOT_FOUND` exactly when the id is absent; only `status` changes |
| Oportunidades.StatusChangeKeepsRefs | src/main/java/com/generation/crm_backend/service/OportunidadeService.java:162-198 | a status change and a deletion keep every stored reference resolvable |
| Oportunidades.WonOnlyThroughNegotiation | src/main/java/com/generation/crm_backend/service/OportunidadeService.java:185-195 | from `NOVA`, `GANHA` is refused directly but reached through `EM_NEGOCIACAO` |
| Oportunidades.OportunidadeService.Save | src/main/java/com/generation/crm_backend/service/OportunidadeService.java:60-96 | on error nothing is saved and the id counter is unchanged; on success `Saved` is inserted under a fresh id and the counter advances by one; references stay resolvable |
| Oportunidades.OportunidadeService.Update | src/main/java/com/generation/crm_backend/service/OportunidadeService.java:99-116 | returns `Replaced` and stores it over the given id, or changes nothing |
| Oportunidades.OportunidadeService.UpdateById | src/main/java/com/generation/crm_backend/service/OportunidadeService.java:118-160 | returns `Patched` and stores it over the id, or changes nothing |
| Oportunidades.OportunidadeService.ResolveReference | src/main/java/com/generation/crm_backend/service/OportunidadeService.java:137-157 | the reference block of the partial update computes `Reassign` |
| Oportunidades.OportunidadeService.DeleteById | src/main/java/com/generation/crm_backend/service/OportunidadeService.java:162-169 | an absent id is `OportunidadeNotFound`; otherwise only that id is removed |
| Oportunidades.OportunidadeService.ChangeStatus | src/main/java/com/generation/crm_backend/service/OportunidadeService.java:171-199 | returns `StatusChanged` and stores it, or changes nothing |
| Usuarios.EmailMatch | src/main/java/com/generation/crm_backend/repository/UsuarioRepository.java:11 | definition: the row test of `findByEmailIgnoreCase`; a null parameter matches a null column (the derived query's `IS NULL`), any other value matches a column equal to it ignoring case |
| Usuarios.EmailInUse | src/main/java/com/generation/crm_backend/service/UsuarioService.java:36 | definition: the finder returns some user, that is, some stored user's email matches |
| Usuarios.EmailMatchSymmetric | src/main/java/com/generation/crm_backend/service/UsuarioService.java:36 | the finder's case-insensitive match is symmetric |
| Usuarios.EmailFoundIgnoringCase | src/main/java/com/generation/crm_backend/service/UsuarioService.java:36-38 | a stored email is found when looked up with any of its ASCII letters switched between upper and lower case |
| Usuarios.RegisterKeepsEmailsUnique | src/main/java/com/generation/crm_backend/service/UsuarioService.java:34-41 | inserting a user whose email is not in use keeps emails unique, and that email is in use afterwards |
| Usuarios.SetCargoAsWritten | src/main/java/com/generation/crm_backend/model/Usuario.java:122-124 | the setter as written stores its argument in `foto`, leaves `cargo` and changes no other field |
| Usuarios.SetCargo | src/main/java/com/generation/crm_backend/model/Usuario.java:122-124 | the corrected setter stores its argument in `cargo`, leaves `foto` and changes no other field |
| Usuarios.OverwrittenAsWritten | src/main/java/com/generation/crm_backend/service/UsuarioService.java:46-51 | definition: the update's setter calls in order over the setter as written; stated by `Usuarios.UpdateAsWrittenAliasesFoto` |
| Usuarios.Overwritten | src/main/java/com/generation/crm_backend/service/UsuarioService.java:46-51 | definition: the update's setter calls in order over the corrected setter; stated by `Usuarios.UpdateReplacesAllFields` |
| Usuarios.UpdateAsWrittenAliasesFoto | src/main/java/com/generation/crm_backend/service/UsuarioService.java:45-53 | as written, the update stores the submitted `cargo` as `foto` and keeps the old `cargo`; all else is the submitted value, null included |
| Usuarios.UpdateAsWrittenLosesCargo | src/main/java/com/generation/crm_backend/service/UsuarioService.java:50-51 | an input on which the update as written keeps the old `cargo` and drops the new `foto` |
| Usuarios.UpdateReplacesAllFields | src/main/java/com/generation/crm_backend/service/UsuarioService.java:46-51 | with the corrected setter the updated user is the submitted one, field for field, and repeating the update changes nothing |
| Usuarios.UpdateCanDuplicateEmail | src/main/java/com/generation/crm_backend/service/UsuarioService.java:46-47 | the update can give a user another user's email in other letter case, which registration refuses |
| Usuarios.UsuarioService.Cadastrar | src/main/java/com/generation/crm_backend/service/UsuarioService.java:34-41 | an email in use gives empty and changes nothing; otherwise the user is inserted under a fresh id and the counter advances by one; unique emails stay unique |
| Usuarios.UsuarioService.Atualizar | src/main/java/com/generation/crm_backend/service/UsuarioService.java:44-54 | an absent id gives empty and changes nothing; otherwise every field is overwritten and saved |

## Findings

| source | as written | input that shows it | evidently intended | confidence | as-written member | corrected member |
|---|---|---|---|---|---|---|
| src/main/java/com/generation/crm_backend/model/Usuario.java:122-124 | `setCargo` assigns `this.foto`, so `atualizarUsuario` stores the new `cargo` as the photo and never changes `cargo` | stored `cargo = "vendedor"`, request `foto = "f.png"`, `cargo = "gerente"`: stored `foto` becomes `"gerente"`, `cargo` stays `"vendedor"` | `setCargo` assigns `this.cargo` | high; not executed | Usuarios.UpdateAsWrittenLosesCargo | Usuarios.UpdateReplacesAllFields |

`Usuarios.UsuarioService.Atualizar` uses the corrected setter.
`Usuarios.OverwrittenAsWritten` and the two as-written lemmas keep the
behaviour of the code as it stands.

## Left out

- Controllers, Swagger configuration and the read-only, paged finders are not part of this model.
- JPA itself is not modelled: column constraints (`unique`, `nullable`), bean validation (`@NotBlank`, `@Size`, `@Email`, `@CPF`/`@CNPJ`, `@Min`/`@Max`) and flush behaviour. The model shows only what the service code checks.
- The current instant (`@CreationTimestamp`) and today's date (`LocalDate.now()`) are parameters.
- `Float` lead scores and `BigDecimal` values are opaque: the services only copy them.
- Case-insensitive comparison is ASCII lower-casing; Java's and the database's Unicode case rules are not modelled.
- Transactions and concurrent check-then-act races are not modelled. Each operation is atomic, and an error leaves the repository unchanged.
- `update(Oportunidade)` is not `@Transactional`, but every error it raises precedes its only write, so atomicity changes nothing there.
- Passwords are stored as given; encryption is not modelled.
- Oportunidades.Replaced: requires a non-null status and date. The only caller validates its body with `@Valid`, and both fields are `@NotNull`. The service itself would hand a null to JPA, which is not modelled.
- Oportunidades.Replaced: a null client or user reference, or a null id inside one, is a `NullReference` (HTTP 500). It stands for the null dereference, or for the repository rejecting a null id.
- Oportunidades.RefsResolve: the client and user repositories are the sets of ids passed in. The opportunity service never deletes a client or user. Deleting a user cascades to that user's opportunities in the database (`cascade = REMOVE`), and that cascade is not modelled.
- Clientes.ClienteService.Delete: the database refuses to delete a client that an opportunity still refers to, because `cliente_id` is a non-null foreign key and the client side has no cascade. The model deletes any stored client, so a client delete can break `Oportunidades.RefsResolve`. The refusal and the exception it raises are not modelled.
- Clientes.Taken: a finder that matches several rows throws in the source (HTTP 500); the model treats any match as present. Under `Clientes.Consistent`, which `create` and `update` keep, at most one client matches (`Clientes.FinderMatchesAtMostOne`), so the two agree.
- Usuarios.UsuarioService.Cadastrar: once an update has given two users emails equal ignoring case (`Usuarios.UpdateCanDuplicateEmail`; the database's unique column can allow it under a case-sensitive collation), `findByEmailIgnoreCase` on that email throws (HTTP 500) in the source, while the model returns empty.
- Usuarios.UsuarioService.Cadastrar: a request that carries an id is inserted under a fresh id. JPA would merge it onto that row instead.
- Usuarios.UsuarioService.Atualizar: the stored emails are not kept unique, since the code does no check (see `Usuarios.UpdateCanDuplicateEmail`). The database's unique column is not modelled.
- Clientes.Updated: its own contract states the not-found and both-documents errors and the error statuses. The merged record is stated by `Clientes.UpdateMergePolicy` and `Clientes.UpdateDocuments`, the duplicate errors by `Clientes.UpdateDuplicateOrder` and `Clientes.UpdateSucceedsIff`.
- Clientes.ClienteService.SetDocuments: requires each given document to be non-empty, which `Clientes.ValidateDocuments` guarantees for its callers.
