/**
 * `ClienteService`: creating, updating and deleting client records in the
 * client repository. It keeps CPF and CNPJ mutually exclusive and email,
 * phone and document unique across clients.
 */
module Clientes {
  import opened Wrappers
  import opened Http
  import opened Text

  datatype TipoPessoa = FISICA | JURIDICA

  /** A Java `Float`. The service only copies it, so the model keeps its raw bits. */
  datatype Float32 = Float32(bits: bv32)

  /** The `@CreationTimestamp` instant, supplied by the caller. */
  datatype Timestamp = Timestamp(ticks: int)

  /** A stored `Cliente`; its id is its key in the repository. */
  datatype Cliente = Cliente(
    nome: string,
    email: Option<string>,
    foto: Option<string>,
    telefone: Option<string>,
    tipoPessoa: TipoPessoa,
    cpf: Option<string>,
    cnpj: Option<string>,
    leadScore: Option<Float32>,
    createdAt: Timestamp)

  /** `ClienteRequestDTO`: every field may be null. */
  datatype ClienteRequest = ClienteRequest(
    nome: Option<string>,
    email: Option<string>,
    foto: Option<string>,
    telefone: Option<string>,
    tipoPessoa: Option<TipoPessoa>,
    cpf: Option<string>,
    cnpj: Option<string>,
    leadScore: Option<Float32>)

  /** The `ResponseStatusException`s the service throws. */
  datatype ClienteError =
    | MissingDocument
    | BothDocuments
    | BlankName
    | DuplicateEmail
    | DuplicateTelefone
    | DuplicateCpf
    | DuplicateCnpj
    | ClienteNotFound
  {
    function Status(): HttpStatus {
      if ClienteNotFound? then NOT_FOUND else BAD_REQUEST
    }
  }

  // ---------------------------------------------------------------- documents

  /** A raw CPF/CNPJ that still holds a digit: the only kind the service counts as given. */
  predicate Supplied(raw: Option<string>) {
    raw.Some? && OnlyDigits(raw.value) != []
  }

  /** A document as the service prepares it: digits only, and null when no digit is left. */
  function DocumentValue(raw: Option<string>): (r: Option<string>)
    ensures r.Some? <==> Supplied(raw)
    ensures r.Some? ==> r.value == OnlyDigits(raw.value)
  {
    match raw
    case None => None
    case Some(s) =>
      var digits := OnlyDigits(s);
      TrimOfDigits(digits);
      if Trim(digits) == [] then None else Some(digits)
  }

  datatype Documentos = Documentos(cpf: Option<string>, cnpj: Option<string>)

  /** `validarEPrepararDocumentos`: normalise both documents and enforce their exclusivity. */
  function ValidateDocuments(dto: ClienteRequest, isCreate: bool): (r: Result<Documentos, ClienteError>)
    ensures isCreate && !Supplied(dto.cpf) && !Supplied(dto.cnpj) ==> r == Failure(MissingDocument)
    ensures Supplied(dto.cpf) && Supplied(dto.cnpj) ==> r == Failure(BothDocuments)
    ensures r.Success? <==>
      !(Supplied(dto.cpf) && Supplied(dto.cnpj)) && (isCreate ==> Supplied(dto.cpf) || Supplied(dto.cnpj))
    ensures r.Success? ==>
      && (r.value.cpf.Some? <==> Supplied(dto.cpf))
      && (r.value.cnpj.Some? <==> Supplied(dto.cnpj))
      && (r.value.cpf.Some? ==> r.value.cpf.value == OnlyDigits(dto.cpf.value))
      && (r.value.cnpj.Some? ==> r.value.cnpj.value == OnlyDigits(dto.cnpj.value))
  {
    var cpf := DocumentValue(dto.cpf);
    var cnpj := DocumentValue(dto.cnpj);
    if isCreate && cpf.None? && cnpj.None? then Failure(MissingDocument)
    else if cpf.Some? && cnpj.Some? then Failure(BothDocuments)
    else Success(Documentos(cpf, cnpj))
  }

  // --------------------------------------------------------------- uniqueness

  /** The fields the repository has single-result finders for. */
  datatype UniqueField = Email | Telefone | Cpf | Cnpj

  function FieldValue(c: Cliente, f: UniqueField): Option<string> {
    match f
    case Email => c.email
    case Telefone => c.telefone
    case Cpf => c.cpf
    case Cnpj => c.cnpj
  }

  /** `findByEmailIgnoreCase` and `findByTelefoneIgnoreCase` ignore case; `findByCpf` and `findByCnpj` do not. */
  predicate Matches(f: UniqueField, stored: string, v: string) {
    if f == Email || f == Telefone then SameIgnoringCase(stored, v) else stored == v
  }

  /** The finder for `f` matches the record `c` against `v`. */
  predicate Hit(c: Cliente, f: UniqueField, v: string) {
    FieldValue(c, f).Some? && Matches(f, FieldValue(c, f).value, v)
  }

  /** The finder returns a client other than `self` (on create there is no `self`). */
  predicate Taken(store: map<int, Cliente>, f: UniqueField, v: string, self: Option<int>) {
    exists k {:trigger Hit(store[k], f, v)} | k in store :: self != Some(k) && Hit(store[k], f, v)
  }

  function DuplicateError(f: UniqueField): ClienteError {
    match f
    case Email => DuplicateEmail
    case Telefone => DuplicateTelefone
    case Cpf => DuplicateCpf
    case Cnpj => DuplicateCnpj
  }

  /** Two records that the finder for `f` would confuse. */
  predicate Clash(f: UniqueField, a: Cliente, b: Cliente) {
    FieldValue(a, f).Some? && FieldValue(b, f).Some? && Matches(f, FieldValue(a, f).value, FieldValue(b, f).value)
  }

  predicate Distinct(a: Cliente, b: Cliente) {
    !Clash(Email, a, b) && !Clash(Telefone, a, b) && !Clash(Cpf, a, b) && !Clash(Cnpj, a, b)
  }

  /** Exactly one document, and the person kind that names it. */
  predicate WellFormed(c: Cliente) {
    (c.cpf.Some? <==> c.cnpj.None?) && (c.tipoPessoa == FISICA <==> c.cpf.Some?)
  }

  /** The repository invariant the service keeps: well-formed records, no two of which a finder confuses. */
  predicate Consistent(store: map<int, Cliente>) {
    && (forall k | k in store :: WellFormed(store[k]))
    && (forall i, j {:trigger Distinct(store[i], store[j])} | i in store && j in store && i != j :: Distinct(store[i], store[j]))
  }

  /** Under the invariant each finder matches at most one client, so the source's single-result finders never see two. */
  lemma {:induction false} FinderMatchesAtMostOne(store: map<int, Cliente>, f: UniqueField, v: string, i: int, j: int)
    requires Consistent(store) && i in store && j in store
    requires Hit(store[i], f, v)
    ensures Hit(store[j], f, v) ==> i == j
  {
    if i != j {
      assert Distinct(store[i], store[j]);
    }
  }

  /**
   * Under the invariant, a value the finder matches against the client's own
   * stored value is held by no other client: skipping the lookup when the
   * value is resubmitted loses nothing.
   */
  lemma {:induction false} OwnValueNotTaken(store: map<int, Cliente>, id: int, f: UniqueField, v: string)
    requires Consistent(store) && id in store
    requires FieldValue(store[id], f).Some? && Matches(f, v, FieldValue(store[id], f).value)
    ensures !Taken(store, f, v, Some(id))
  {
    forall k | k in store && k != id
      ensures !Hit(store[k], f, v)
    {
      assert Distinct(store[k], store[id]);
    }
  }

  // ------------------------------------------------------------------- create

  /** The email `create` stores: trimmed, and null when the request has no text. */
  function CreateEmail(dto: ClienteRequest): Option<string> {
    if HasText(dto.email) then Some(Trim(dto.email.value)) else None
  }

  /** The phone `create` stores: trimmed and digit-stripped, and null when the request has no text. */
  function CreateTelefone(dto: ClienteRequest): Option<string> {
    if HasText(dto.telefone) then Some(OnlyDigits(Trim(dto.telefone.value))) else None
  }

  /** The first check `create` fails, in the source's order: documents, name, then the email, phone and document lookups. */
  function CreateError(store: map<int, Cliente>, dto: ClienteRequest): (e: Option<ClienteError>)
    ensures e.None? ==> ValidateDocuments(dto, true).Success? && HasText(dto.nome)
  {
    match ValidateDocuments(dto, true)
    case Failure(err) => Some(err)
    case Success(docs) =>
      if !HasText(dto.nome) then Some(BlankName)
      else if CreateEmail(dto).Some? && Taken(store, Email, CreateEmail(dto).value, None) then Some(DuplicateEmail)
      else if CreateTelefone(dto).Some? && Taken(store, Telefone, CreateTelefone(dto).value, None) then Some(DuplicateTelefone)
      else if docs.cpf.Some? && Taken(store, Cpf, docs.cpf.value, None) then Some(DuplicateCpf)
      else if docs.cnpj.Some? && Taken(store, Cnpj, docs.cnpj.value, None) then Some(DuplicateCnpj)
      else None
  }

  /** The record `create` builds once every check has passed. */
  function NewCliente(dto: ClienteRequest, docs: Documentos, now: Timestamp): Cliente
    requires HasText(dto.nome)
  {
    var tipo := if docs.cpf.Some? then FISICA else JURIDICA;
    var cnpj := if docs.cpf.Some? then None else docs.cnpj;
    Cliente(Trim(dto.nome.value), CreateEmail(dto), dto.foto, CreateTelefone(dto), tipo, docs.cpf, cnpj, dto.leadScore, now)
  }

  /** `create`: the record it saves, or the error it raises. */
  function Created(store: map<int, Cliente>, dto: ClienteRequest, now: Timestamp): (r: Result<Cliente, ClienteError>)
    ensures !Supplied(dto.cpf) && !Supplied(dto.cnpj) ==> r == Failure(MissingDocument)
    ensures Supplied(dto.cpf) && Supplied(dto.cnpj) ==> r == Failure(BothDocuments)
    ensures ValidateDocuments(dto, true).Success? && !HasText(dto.nome) ==> r == Failure(BlankName)
    ensures r.Failure? ==> r.error.Status() == BAD_REQUEST
    ensures r.Success? ==> WellFormed(r.value) && r.value.createdAt == now
  {
    match CreateError(store, dto)
    case Some(e) => Failure(e)
    case None => Success(NewCliente(dto, ValidateDocuments(dto, true).value, now))
  }

  /**
   * Once the documents and the name pass, `create` reports the first
   * duplicate its finders see, in the order email, phone, CPF, CNPJ.
   */
  lemma {:induction false} CreateDuplicateOrder(store: map<int, Cliente>, dto: ClienteRequest, now: Timestamp)
    requires ValidateDocuments(dto, true).Success? && HasText(dto.nome)
    ensures var docs, r := ValidateDocuments(dto, true).value, Created(store, dto, now);
      var email := CreateEmail(dto).Some? && Taken(store, Email, CreateEmail(dto).value, None);
      var telefone := CreateTelefone(dto).Some? && Taken(store, Telefone, CreateTelefone(dto).value, None);
      var cpf := docs.cpf.Some? && Taken(store, Cpf, docs.cpf.value, None);
      var cnpj := docs.cnpj.Some? && Taken(store, Cnpj, docs.cnpj.value, None);
      && (r == Failure(DuplicateEmail) <==> email)
      && (r == Failure(DuplicateTelefone) <==> !email && telefone)
      && (r == Failure(DuplicateCpf) <==> !email && !telefone && cpf)
      && (r == Failure(DuplicateCnpj) <==> !email && !telefone && !cpf && cnpj)
      && (r.Success? <==> !email && !telefone && !cpf && !cnpj)
  {
  }

  /** `create` succeeds exactly when one document is given, the name has text and no finder reports a duplicate. */
  lemma {:induction false} CreateSucceedsIff(store: map<int, Cliente>, dto: ClienteRequest, now: Timestamp)
    ensures Created(store, dto, now).Success? <==>
      && Supplied(dto.cpf) != Supplied(dto.cnpj)
      && HasText(dto.nome)
      && !(HasText(dto.email) && Taken(store, Email, Trim(dto.email.value), None))
      && !(HasText(dto.telefone) && Taken(store, Telefone, OnlyDigits(dto.telefone.value), None))
      && !(Supplied(dto.cpf) && Taken(store, Cpf, OnlyDigits(dto.cpf.value), None))
      && !(Supplied(dto.cnpj) && Taken(store, Cnpj, OnlyDigits(dto.cnpj.value), None))
  {
    if HasText(dto.telefone) {
      TrimKeepsDigits(dto.telefone.value);
    }
  }

  /**
   * A created record holds exactly the document that was given, digits only,
   * with the person kind derived from it.
   */
  lemma {:induction false} CreateDerivesDocument(store: map<int, Cliente>, dto: ClienteRequest, now: Timestamp)
    requires Created(store, dto, now).Success?
    ensures var c := Created(store, dto, now).value;
      && (Supplied(dto.cpf) ==> c.cpf == Some(OnlyDigits(dto.cpf.value)) && c.cnpj.None? && c.tipoPessoa == FISICA)
      && (Supplied(dto.cnpj) ==> c.cnpj == Some(OnlyDigits(dto.cnpj.value)) && c.cpf.None? && c.tipoPessoa == JURIDICA)
  {
  }

  /** The request's own `tipoPessoa` plays no part in `create`: the kind comes from the document alone. */
  lemma {:induction false} CreateIgnoresTipoPessoa(store: map<int, Cliente>, dto: ClienteRequest, now: Timestamp, t: Option<TipoPessoa>)
    ensures Created(store, dto.(tipoPessoa := t), now) == Created(store, dto, now)
  {
    var other := dto.(tipoPessoa := t);
    assert other.cpf == dto.cpf && other.cnpj == dto.cnpj && other.nome == dto.nome;
    assert ValidateDocuments(other, true) == ValidateDocuments(dto, true);
    assert CreateEmail(other) == CreateEmail(dto) && CreateTelefone(other) == CreateTelefone(dto);
    assert CreateError(store, other) == CreateError(store, dto);
  }

  /** The other fields of a created record: trimmed name and email, digit-only phone, photo and score as given. */
  lemma {:induction false} CreateFields(store: map<int, Cliente>, dto: ClienteRequest, now: Timestamp)
    requires Created(store, dto, now).Success?
    ensures var c := Created(store, dto, now).value;
      && c.nome == Trim(dto.nome.value)
      && c.email == (if HasText(dto.email) then Some(Trim(dto.email.value)) else None)
      && c.telefone == (if HasText(dto.telefone) then Some(OnlyDigits(dto.telefone.value)) else None)
      && c.foto == dto.foto
      && c.leadScore == dto.leadScore
  {
    if HasText(dto.telefone) {
      TrimKeepsDigits(dto.telefone.value);
    }
  }

  /** A record none of whose unique values any finder matches in `a` is distinct from `a`, both ways round. */
  lemma {:induction false} FreeValuesDistinct(a: Cliente, c: Cliente)
    requires forall f: UniqueField :: FieldValue(c, f).Some? ==> !Hit(a, f, FieldValue(c, f).value)
    ensures Distinct(a, c) && Distinct(c, a)
  {
    assert FieldValue(c, Email).Some? ==> !Hit(a, Email, c.email.value);
    assert FieldValue(c, Telefone).Some? ==> !Hit(a, Telefone, c.telefone.value);
  }

  /** No finder confuses a created record with one already stored. */
  lemma {:induction false} CreatedIsFree(store: map<int, Cliente>, dto: ClienteRequest, now: Timestamp, k: int)
    requires k in store
    requires Created(store, dto, now).Success?
    ensures Distinct(store[k], Created(store, dto, now).value) && Distinct(Created(store, dto, now).value, store[k])
  {
    var docs := ValidateDocuments(dto, true).value;
    assert CreateError(store, dto).None?;
    var c := NewCliente(dto, docs, now);
    assert Created(store, dto, now).value == c;
    forall f: UniqueField | FieldValue(c, f).Some?
      ensures !Hit(store[k], f, FieldValue(c, f).value)
    {
      assert !Taken(store, f, FieldValue(c, f).value, None);
    }
    FreeValuesDistinct(store[k], c);
  }

  /** Saving a created record under a fresh id keeps the repository invariant. */
  lemma {:induction false} CreateKeepsConsistent(store: map<int, Cliente>, id: int, dto: ClienteRequest, now: Timestamp)
    requires Consistent(store) && id !in store
    requires Created(store, dto, now).Success?
    ensures Consistent(store[id := Created(store, dto, now).value])
  {
    var c := Created(store, dto, now).value;
    var s := store[id := c];
    forall i, j | i in s && j in s && i != j
      ensures Distinct(s[i], s[j])
    {
      if i == id {
        CreatedIsFree(store, dto, now, j);
      } else if j == id {
        CreatedIsFree(store, dto, now, i);
      } else {
        assert Distinct(store[i], store[j]);
      }
    }
  }

  // ------------------------------------------------------------------- update

  /** `nome` under update: replaced by its trimmed text, kept when null or blank. */
  function MergeNome(current: string, given: Option<string>): string {
    if HasText(given) then Trim(given.value) else current
  }

  /** `foto`, and email and phone once normalised, under update: null keeps, empty clears, a value replaces. */
  function MergeField(current: Option<string>, given: Option<string>): Option<string> {
    match given
    case None => current
    case Some(v) => if v == [] then None else given
  }

  /** The email as `update` normalises it. */
  function UpdateEmail(dto: ClienteRequest): Option<string> {
    if dto.email.Some? then Some(Trim(dto.email.value)) else None
  }

  /** The phone as `update` normalises it. */
  function UpdateTelefone(dto: ClienteRequest): Option<string> {
    if dto.telefone.Some? then Some(OnlyDigits(Trim(dto.telefone.value))) else None
  }

  /**
   * `update`'s duplicate check on one field: a non-empty value that differs
   * from the stored one (as the finder compares) is looked up, and another
   * client holds it.
   */
  predicate Conflicts(store: map<int, Cliente>, id: int, f: UniqueField, current: Option<string>, given: Option<string>) {
    && given.Some? && given.value != []
    && (current.None? || !Matches(f, given.value, current.value))
    && Taken(store, f, given.value, Some(id))
  }

  /** The email check of `update`, then its phone check, against the client's current values. */
  function ContactError(store: map<int, Cliente>, id: int, c: Cliente, dto: ClienteRequest): Option<ClienteError> {
    if Conflicts(store, id, Email, c.email, UpdateEmail(dto)) then Some(DuplicateEmail)
    else if Conflicts(store, id, Telefone, c.telefone, UpdateTelefone(dto)) then Some(DuplicateTelefone)
    else None
  }

  /** The CPF check of `update`, or its CNPJ check when no CPF is given. */
  function DocumentError(store: map<int, Cliente>, id: int, c: Cliente, docs: Documentos): Option<ClienteError> {
    if docs.cpf.Some? then
      if Conflicts(store, id, Cpf, c.cpf, docs.cpf) then Some(DuplicateCpf) else None
    else if Conflicts(store, id, Cnpj, c.cnpj, docs.cnpj) then Some(DuplicateCnpj)
    else None
  }

  /** The first check `update` fails, in the source's order: the id, the documents, then the email, phone and document lookups. */
  function UpdateError(store: map<int, Cliente>, id: int, dto: ClienteRequest): (e: Option<ClienteError>)
    ensures e.None? ==> id in store && ValidateDocuments(dto, false).Success?
  {
    if id !in store then Some(ClienteNotFound)
    else match ValidateDocuments(dto, false)
    case Failure(err) => Some(err)
    case Success(docs) =>
      if ContactError(store, id, store[id], dto).Some? then ContactError(store, id, store[id], dto)
      else DocumentError(store, id, store[id], docs)
  }

  /** A CPF or CNPJ given on update replaces the pair and the person kind; none given keeps all three. */
  function MergeDocuments(c: Cliente, docs: Documentos): Cliente {
    if docs.cpf.Some? then c.(cpf := docs.cpf, tipoPessoa := FISICA, cnpj := None)
    else if docs.cnpj.Some? then c.(cnpj := docs.cnpj, tipoPessoa := JURIDICA, cpf := None)
    else c
  }

  /** The contact fields after `update`'s setters: name, photo, email and phone. */
  function MergeContact(c: Cliente, dto: ClienteRequest): Cliente {
    c.(nome := MergeNome(c.nome, dto.nome),
       foto := MergeField(c.foto, dto.foto),
       email := MergeField(c.email, UpdateEmail(dto)),
       telefone := MergeField(c.telefone, UpdateTelefone(dto)))
  }

  /** The record `update` saves: the stored one after the setter sequence, in the source's order. */
  function Merged(c: Cliente, dto: ClienteRequest, docs: Documentos): Cliente {
    var m := MergeDocuments(MergeContact(c, dto), docs);
    if dto.leadScore.Some? then m.(leadScore := dto.leadScore) else m
  }

  /** `update`: the record it saves under `id`, or the error it raises. */
  function Updated(store: map<int, Cliente>, id: int, dto: ClienteRequest): (r: Result<Cliente, ClienteError>)
    ensures id !in store ==> r == Failure(ClienteNotFound)
    ensures id in store && Supplied(dto.cpf) && Supplied(dto.cnpj) ==> r == Failure(BothDocuments)
    ensures r.Failure? ==> (r.error.Status() == NOT_FOUND <==> id !in store)
  {
    match UpdateError(store, id, dto)
    case Some(e) => Failure(e)
    case None => Success(Merged(store[id], dto, ValidateDocuments(dto, false).value))
  }

  /**
   * Once the id and the documents pass, `update` reports the first conflict
   * it finds, in the order email, phone, then the document that was given.
   */
  lemma {:induction false} UpdateDuplicateOrder(store: map<int, Cliente>, id: int, dto: ClienteRequest)
    requires id in store && ValidateDocuments(dto, false).Success?
    ensures var c, docs, r := store[id], ValidateDocuments(dto, false).value, Updated(store, id, dto);
      var email := Conflicts(store, id, Email, c.email, UpdateEmail(dto));
      var telefone := Conflicts(store, id, Telefone, c.telefone, UpdateTelefone(dto));
      var cpf := docs.cpf.Some? && Conflicts(store, id, Cpf, c.cpf, docs.cpf);
      var cnpj := docs.cpf.None? && Conflicts(store, id, Cnpj, c.cnpj, docs.cnpj);
      && (r == Failure(DuplicateEmail) <==> email)
      && (r == Failure(DuplicateTelefone) <==> !email && telefone)
      && (r == Failure(DuplicateCpf) <==> !email && !telefone && cpf)
      && (r == Failure(DuplicateCnpj) <==> !email && !telefone && cnpj)
      && (r.Success? <==> !email && !telefone && !cpf && !cnpj)
  {
  }

  /** The per-field merge policy of `update`: null keeps, empty clears, a value overwrites. */
  lemma {:induction false} UpdateMergePolicy(store: map<int, Cliente>, id: int, dto: ClienteRequest)
    requires Updated(store, id, dto).Success?
    ensures id in store
    ensures var c, r := store[id], Updated(store, id, dto).value;
      && r.nome == (if HasText(dto.nome) then Trim(dto.nome.value) else c.nome)
      && r.foto == (if dto.foto.None? then c.foto else if dto.foto.value == [] then None else dto.foto)
      && r.email == (if dto.email.None? then c.email
                     else if Trim(dto.email.value) == [] then None else Some(Trim(dto.email.value)))
      && r.telefone == (if dto.telefone.None? then c.telefone
                        else if OnlyDigits(dto.telefone.value) == [] then None else Some(OnlyDigits(dto.telefone.value)))
      && r.leadScore == (if dto.leadScore.None? then c.leadScore else dto.leadScore)
      && r.createdAt == c.createdAt
  {
    if dto.telefone.Some? {
      TrimKeepsDigits(dto.telefone.value);
    }
  }

  /** Documents under update: none given keeps `cpf`, `cnpj` and `tipoPessoa`; a CPF or CNPJ given replaces the pair. */
  lemma {:induction false} UpdateDocuments(store: map<int, Cliente>, id: int, dto: ClienteRequest)
    requires Updated(store, id, dto).Success?
    ensures id in store
    ensures var c, r := store[id], Updated(store, id, dto).value;
      && (!Supplied(dto.cpf) && !Supplied(dto.cnpj) ==>
            r.cpf == c.cpf && r.cnpj == c.cnpj && r.tipoPessoa == c.tipoPessoa)
      && (Supplied(dto.cpf) ==>
            r.cpf == Some(OnlyDigits(dto.cpf.value)) && r.cnpj.None? && r.tipoPessoa == FISICA)
      && (Supplied(dto.cnpj) ==>
            r.cnpj == Some(OnlyDigits(dto.cnpj.value)) && r.cpf.None? && r.tipoPessoa == JURIDICA)
  {
  }

  /** An email or phone that is empty once normalised is cleared without a lookup, so it never conflicts. */
  lemma {:induction false} UpdateClearsWithoutLookup(store: map<int, Cliente>, id: int, dto: ClienteRequest)
    ensures dto.email.Some? && Trim(dto.email.value) == [] ==> Updated(store, id, dto) != Failure(DuplicateEmail)
    ensures dto.telefone.Some? && OnlyDigits(dto.telefone.value) == [] ==> Updated(store, id, dto) != Failure(DuplicateTelefone)
  {
    if dto.email.Some? && Trim(dto.email.value) == [] {
      ClearedEmailNeverConflicts(store, id, dto);
    }
    if dto.telefone.Some? && OnlyDigits(dto.telefone.value) == [] {
      TrimKeepsDigits(dto.telefone.value);
      ClearedTelefoneNeverConflicts(store, id, dto);
    }
  }

  lemma ClearedEmailNeverConflicts(store: map<int, Cliente>, id: int, dto: ClienteRequest)
    requires dto.email.Some? && Trim(dto.email.value) == []
    ensures UpdateError(store, id, dto) != Some(DuplicateEmail)
  {
  }

  lemma ClearedTelefoneNeverConflicts(store: map<int, Cliente>, id: int, dto: ClienteRequest)
    requires dto.telefone.Some? && OnlyDigits(Trim(dto.telefone.value)) == []
    ensures UpdateError(store, id, dto) != Some(DuplicateTelefone)
  {
  }

  /** Under the invariant, a value that the merge leaves in a unique field is held by no other client. */
  lemma {:induction false} MergedValueFree(store: map<int, Cliente>, id: int, k: int, f: UniqueField, given: Option<string>)
    requires Consistent(store) && id in store && k in store && k != id
    requires !Conflicts(store, id, f, FieldValue(store[id], f), given)
    ensures var m := MergeField(FieldValue(store[id], f), given); m.Some? ==> !Hit(store[k], f, m.value)
  {
    var current := FieldValue(store[id], f);
    assert Distinct(store[k], store[id]);
    if given.Some? && given.value != [] && current.Some? && Matches(f, given.value, current.value) {
      OwnValueNotTaken(store, id, f, given.value);
    }
  }

  /**
   * Under the invariant, `update` fails on a duplicate exactly when another
   * client holds the new value: the match on the client itself, and the
   * skipped lookup for a resubmitted value, never conflict.
   */
  lemma {:induction false} UpdateSucceedsIff(store: map<int, Cliente>, id: int, dto: ClienteRequest)
    requires Consistent(store) && id in store
    ensures Updated(store, id, dto).Success? <==>
      && !(Supplied(dto.cpf) && Supplied(dto.cnpj))
      && !(dto.email.Some? && Trim(dto.email.value) != [] && Taken(store, Email, Trim(dto.email.value), Some(id)))
      && !(dto.telefone.Some? && OnlyDigits(dto.telefone.value) != []
           && Taken(store, Telefone, OnlyDigits(dto.telefone.value), Some(id)))
      && !(Supplied(dto.cpf) && Taken(store, Cpf, OnlyDigits(dto.cpf.value), Some(id)))
      && !(Supplied(dto.cnpj) && Taken(store, Cnpj, OnlyDigits(dto.cnpj.value), Some(id)))
  {
    var c := store[id];
    if dto.telefone.Some? {
      TrimKeepsDigits(dto.telefone.value);
    }
    SkippedLookupHarmless(store, id, Email, UpdateEmail(dto));
    SkippedLookupHarmless(store, id, Telefone, UpdateTelefone(dto));
    SkippedLookupHarmless(store, id, Cpf, DocumentValue(dto.cpf));
    SkippedLookupHarmless(store, id, Cnpj, DocumentValue(dto.cnpj));
  }

  /** Under the invariant, `update`'s check on a field raises exactly when another client holds the new non-empty value. */
  lemma {:induction false} SkippedLookupHarmless(store: map<int, Cliente>, id: int, f: UniqueField, given: Option<string>)
    requires Consistent(store) && id in store
    ensures Conflicts(store, id, f, FieldValue(store[id], f), given) <==>
      given.Some? && given.value != [] && Taken(store, f, given.value, Some(id))
  {
    var current := FieldValue(store[id], f);
    if given.Some? && given.value != [] && current.Some? && Matches(f, given.value, current.value) {
      OwnValueNotTaken(store, id, f, given.value);
    }
  }

  /** Under the invariant, no finder confuses an updated record with any other stored one. */
  lemma {:induction false} UpdatedIsFree(store: map<int, Cliente>, id: int, dto: ClienteRequest, k: int)
    requires Consistent(store)
    requires Updated(store, id, dto).Success?
    requires k in store && k != id
    ensures Distinct(store[k], Updated(store, id, dto).value) && Distinct(Updated(store, id, dto).value, store[k])
  {
    var docs := ValidateDocuments(dto, false).value;
    assert UpdateError(store, id, dto).None?;
    var r := Merged(store[id], dto, docs);
    assert Updated(store, id, dto).value == r;
    MergedValueFree(store, id, k, Email, UpdateEmail(dto));
    MergedValueFree(store, id, k, Telefone, UpdateTelefone(dto));
    MergedValueFree(store, id, k, Cpf, docs.cpf);
    MergedValueFree(store, id, k, Cnpj, docs.cnpj);
    FreeValuesDistinct(store[k], r);
  }

  /** Saving an updated record keeps the repository invariant. */
  lemma {:induction false} UpdateKeepsConsistent(store: map<int, Cliente>, id: int, dto: ClienteRequest)
    requires Consistent(store)
    requires Updated(store, id, dto).Success?
    ensures Consistent(store[id := Updated(store, id, dto).value])
  {
    var r := Updated(store, id, dto).value;
    assert UpdateError(store, id, dto).None?;
    assert WellFormed(store[id]);
    assert r == Merged(store[id], dto, ValidateDocuments(dto, false).value);
    var s := store[id := r];
    forall i, j | i in s && j in s && i != j
      ensures Distinct(s[i], s[j])
    {
      if i == id {
        UpdatedIsFree(store, id, dto, j);
      } else if j == id {
        UpdatedIsFree(store, id, dto, i);
      } else {
        assert Distinct(store[i], store[j]);
      }
    }
  }

  // ------------------------------------------------------------------ service

  /** `ClienteService` over its repository; `nextId` stands for the identity column. */
  class ClienteService {
    var repository: map<int, Cliente>
    var nextId: int

    ghost predicate Valid()
      reads this
    {
      Consistent(repository) && forall k | k in repository :: k < nextId
    }

    constructor ()
      ensures Valid() && repository == map[]
    {
      repository := map[];
      nextId := 1;
    }

    /** `create`: validate, look up each unique field, then save under a fresh id. */
    method Create(dto: ClienteRequest, now: Timestamp) returns (r: Result<int, ClienteError>)
      requires Valid()
      modifies this
      ensures Valid()
      ensures Created(old(repository), dto, now).Failure? ==>
        r == Failure(Created(old(repository), dto, now).error) && repository == old(repository) && nextId == old(nextId)
      ensures Created(old(repository), dto, now).Success? ==>
        && r == Success(old(nextId)) && old(nextId) !in old(repository)
        && repository == old(repository)[old(nextId) := Created(old(repository), dto, now).value]
        && nextId == old(nextId) + 1
    {
      var docs := ValidateDocuments(dto, true);
      if docs.Failure? {
        assert CreateError(repository, dto) == Some(docs.error);
        return Failure(docs.error);
      }
      var cpf, cnpj := docs.value.cpf, docs.value.cnpj;
      if !HasText(dto.nome) {
        assert CreateError(repository, dto) == Some(BlankName);
        return Failure(BlankName);
      }
      var nome := Trim(dto.nome.value);
      var email: Option<string> := None;
      if HasText(dto.email) {
        var emailTrimmed := Trim(dto.email.value);
        if Taken(repository, Email, emailTrimmed, None) {
          assert CreateError(repository, dto) == Some(DuplicateEmail);
          return Failure(DuplicateEmail);
        }
        email := Some(emailTrimmed);
      }
      assert email == CreateEmail(dto) && !(email.Some? && Taken(repository, Email, email.value, None));
      var telefone: Option<string> := None;
      if HasText(dto.telefone) {
        var telefoneTrimmed := OnlyDigits(Trim(dto.telefone.value));
        if Taken(repository, Telefone, telefoneTrimmed, None) {
          assert CreateError(repository, dto) == Some(DuplicateTelefone);
          return Failure(DuplicateTelefone);
        }
        telefone := Some(telefoneTrimmed);
      }
      assert telefone == CreateTelefone(dto) && !(telefone.Some? && Taken(repository, Telefone, telefone.value, None));
      var tipo: TipoPessoa;
      if cpf.Some? {
        if Taken(repository, Cpf, cpf.value, None) {
          assert CreateError(repository, dto) == Some(DuplicateCpf);
          return Failure(DuplicateCpf);
        }
        tipo, cnpj := FISICA, None;
      } else {
        // on create, validation leaves exactly one document
        if Taken(repository, Cnpj, cnpj.value, None) {
          assert CreateError(repository, dto) == Some(DuplicateCnpj);
          return Failure(DuplicateCnpj);
        }
        tipo, cpf := JURIDICA, None;
      }
      var cliente := Cliente(nome, email, dto.foto, telefone, tipo, cpf, cnpj, dto.leadScore, now);
      assert CreateError(repository, dto).None?;
      assert cliente == NewCliente(dto, docs.value, now);
      CreateKeepsConsistent(repository, nextId, dto, now);
      repository := repository[nextId := cliente];
      r := Success(nextId);
      nextId := nextId + 1;
    }

    /** `update`: load, merge field by field with the lookups, then save over the same id. */
    method Update(id: int, dto: ClienteRequest) returns (r: Result<Cliente, ClienteError>)
      requires Valid()
      modifies this
      ensures Valid()
      ensures r == Updated(old(repository), id, dto)
      ensures repository == if r.Success? then old(repository)[id := r.value] else old(repository)
      ensures nextId == old(nextId)
    {
      if id !in repository {
        return Failure(ClienteNotFound);
      }
      var docs := ValidateDocuments(dto, false);
      if docs.Failure? {
        return Failure(docs.error);
      }
      var contact := SetContact(id, repository[id], dto);
      if contact.Failure? {
        return Failure(contact.error);
      }
      var documents := SetDocuments(id, contact.value, docs.value);
      if documents.Failure? {
        return Failure(documents.error);
      }
      var cliente := documents.value;
      if dto.leadScore.Some? {
        cliente := cliente.(leadScore := dto.leadScore);
      }
      UpdateKeepsConsistent(repository, id, dto);
      repository := repository[id := cliente];
      r := Success(cliente);
    }

    /** The name, photo, email and phone blocks of `update`, with their lookups. */
    method SetContact(id: int, stored: Cliente, dto: ClienteRequest) returns (r: Result<Cliente, ClienteError>)
      ensures r == match ContactError(repository, id, stored, dto)
                   case Some(e) => Failure(e)
                   case None => Success(MergeContact(stored, dto))
    {
      var cliente := stored;
      if HasText(dto.nome) {
        cliente := cliente.(nome := Trim(dto.nome.value));
      }
      if dto.foto.Some? {
        cliente := cliente.(foto := if dto.foto.value == [] then None else dto.foto);
      }
      if dto.email.Some? {
        var emailNovo := Trim(dto.email.value);
        if emailNovo == [] {
          cliente := cliente.(email := None);
        } else {
          if cliente.email.None? || !SameIgnoringCase(emailNovo, cliente.email.value) {
            if Taken(repository, Email, emailNovo, Some(id)) {
              return Failure(DuplicateEmail);
            }
          }
          cliente := cliente.(email := Some(emailNovo));
        }
      }
      assert !Conflicts(repository, id, Email, stored.email, UpdateEmail(dto));
      if dto.telefone.Some? {
        var telefoneNovo := OnlyDigits(Trim(dto.telefone.value));
        if telefoneNovo == [] {
          cliente := cliente.(telefone := None);
        } else {
          if cliente.telefone.None? || !SameIgnoringCase(telefoneNovo, cliente.telefone.value) {
            if Taken(repository, Telefone, telefoneNovo, Some(id)) {
              return Failure(DuplicateTelefone);
            }
          }
          cliente := cliente.(telefone := Some(telefoneNovo));
        }
      }
      r := Success(cliente);
    }

    /** The CPF and CNPJ blocks of `update`: the lookup, then the document pair and the person kind. */
    method SetDocuments(id: int, current: Cliente, docs: Documentos) returns (r: Result<Cliente, ClienteError>)
      requires docs.cpf.Some? ==> docs.cpf.value != []
      requires docs.cnpj.Some? ==> docs.cnpj.value != []
      ensures r == match DocumentError(repository, id, current, docs)
                   case Some(e) => Failure(e)
                   case None => Success(MergeDocuments(current, docs))
    {
      var cliente := current;
      if docs.cpf.Some? {
        if cliente.cpf.None? || docs.cpf.value != cliente.cpf.value {
          if Taken(repository, Cpf, docs.cpf.value, Some(id)) {
            return Failure(DuplicateCpf);
          }
        }
        cliente := cliente.(cpf := docs.cpf, tipoPessoa := FISICA, cnpj := None);
      } else if docs.cnpj.Some? {
        if cliente.cnpj.None? || docs.cnpj.value != cliente.cnpj.value {
          if Taken(repository, Cnpj, docs.cnpj.value, Some(id)) {
            return Failure(DuplicateCnpj);
          }
        }
        cliente := cliente.(cnpj := docs.cnpj, tipoPessoa := JURIDICA, cpf := None);
      }
      r := Success(cliente);
    }

    /** `delete`: an existence check, then removal of that id only. */
    method Delete(id: int) returns (r: Result<(), ClienteError>)
      requires Valid()
      modifies this
      ensures Valid()
      ensures r == if id in old(repository) then Success(()) else Failure(ClienteNotFound)
      ensures repository == old(repository) - {id}
      ensures nextId == old(nextId)
    {
      if id !in repository {
        return Failure(ClienteNotFound);
      }
      repository := repository - {id};
      r := Success(());
    }
  }
}
