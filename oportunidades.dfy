/**
 * `OportunidadeService`: creating, editing, deleting and moving sales
 * opportunities through their statuses. Every opportunity belongs to one
 * client and one user, held here by their ids; the client and user
 * repositories appear only as the sets of ids they hold.
 */
module Oportunidades {
  import opened Wrappers
  import opened Http

  datatype StatusOportunidade = NOVA | EM_NEGOCIACAO | GANHA | PERDIDA | ARQUIVADA

  /** A `BigDecimal`. The service only copies it, so the model keeps it opaque. */
  datatype Decimal = Decimal(unscaled: int, scale: int)

  /** A `LocalDate`, as a day count; "today" is supplied by the caller. */
  datatype LocalDate = LocalDate(epochDay: int)

  /** A stored `Oportunidade`; its id is its key in the repository. */
  datatype Oportunidade = Oportunidade(
    titulo: Option<string>,
    descricao: Option<string>,
    valorEstimado: Option<Decimal>,
    status: StatusOportunidade,
    dataCriacao: LocalDate,
    cliente: int,
    usuario: int)

  /** A `Cliente` or `Usuario` object in a request: only its (possibly null) id is read. */
  datatype Referencia = Referencia(id: Option<int>)

  /** The `Oportunidade` a caller passes in: every field may be null. */
  datatype OportunidadeInput = OportunidadeInput(
    id: Option<int>,
    titulo: Option<string>,
    descricao: Option<string>,
    valorEstimado: Option<Decimal>,
    status: Option<StatusOportunidade>,
    dataCriacao: Option<LocalDate>,
    cliente: Option<Referencia>,
    usuario: Option<Referencia>)

  /** The exceptions the service raises. */
  datatype OportunidadeError =
    | ClienteRequired
    | ClienteNotFound
    | UsuarioRequired
    | UsuarioNotFound
    | OportunidadeNotFound
    | ReopenWon
    | WonToLost
    | NovaOnly
    | NegociacaoOnly
    | NullReference
  {
    /** The HTTP status of the `ResponseStatusException`, or 500 for a null dereference. */
    function Status(): HttpStatus {
      match this
      case ClienteNotFound | UsuarioNotFound | OportunidadeNotFound => NOT_FOUND
      case NullReference => INTERNAL_SERVER_ERROR
      case _ => BAD_REQUEST
    }
  }

  // -------------------------------------------------------------------- guard

  /** The targets the status guard lets through from each status, as a table. */
  function AllowedTargets(from: StatusOportunidade): set<StatusOportunidade> {
    match from
    case NOVA => {EM_NEGOCIACAO, PERDIDA}
    case EM_NEGOCIACAO => {GANHA, PERDIDA, ARQUIVADA}
    case GANHA => {EM_NEGOCIACAO, GANHA, ARQUIVADA}
    case PERDIDA => {NOVA, EM_NEGOCIACAO, GANHA, PERDIDA, ARQUIVADA}
    case ARQUIVADA => {NOVA, EM_NEGOCIACAO, GANHA, PERDIDA, ARQUIVADA}
  }

  /**
   * The four checks of `atualizarStatusOportunidade`, in order: the first
   * one that fires names the rejection. A pair passes exactly when the
   * table lets it through.
   */
  function StatusRejection(from: StatusOportunidade, to: StatusOportunidade): (e: Option<OportunidadeError>)
    ensures e.Some? ==> e.value.Status() == BAD_REQUEST
  {
    if from == GANHA && to == NOVA then Some(ReopenWon)
    else if from == GANHA && to == PERDIDA then Some(WonToLost)
    else if from == NOVA && !(to == EM_NEGOCIACAO || to == PERDIDA) then Some(NovaOnly)
    else if from == EM_NEGOCIACAO && !(to == GANHA || to == PERDIDA || to == ARQUIVADA) then Some(NegociacaoOnly)
    else None
  }

  /** The guard lets a change through exactly when the table lists its target. */
  lemma {:induction false} GuardMatchesTable(from: StatusOportunidade, to: StatusOportunidade)
    ensures StatusRejection(from, to).None? <==> to in AllowedTargets(from)
  {
    match from
    case NOVA =>
    case EM_NEGOCIACAO =>
    case GANHA =>
    case PERDIDA => assert to.NOVA? || to.EM_NEGOCIACAO? || to.GANHA? || to.PERDIDA? || to.ARQUIVADA?;
    case ARQUIVADA => assert to.NOVA? || to.EM_NEGOCIACAO? || to.GANHA? || to.PERDIDA? || to.ARQUIVADA?;
  }

  /** A lifecycle in which won, lost and archived opportunities are final. */
  function TerminalTargets(from: StatusOportunidade): set<StatusOportunidade> {
    match from
    case NOVA => {EM_NEGOCIACAO, PERDIDA}
    case EM_NEGOCIACAO => {GANHA, PERDIDA, ARQUIVADA}
    case _ => {}
  }

  /**
   * The guard agrees with the terminal-state lifecycle on `NOVA` and
   * `EM_NEGOCIACAO`, lets through everything that lifecycle allows, and
   * also lets won, lost and archived opportunities move on.
   */
  lemma {:induction false} GuardWeakerThanTerminal(from: StatusOportunidade, to: StatusOportunidade)
    ensures to in TerminalTargets(from) ==> StatusRejection(from, to).None?
    ensures (from == NOVA || from == EM_NEGOCIACAO) ==> (StatusRejection(from, to).None? <==> to in TerminalTargets(from))
    ensures from != NOVA && from != EM_NEGOCIACAO && !(from == GANHA && (to == NOVA || to == PERDIDA)) ==>
      StatusRejection(from, to).None? && to !in TerminalTargets(from)
  {
    GuardMatchesTable(from, to);
  }

  /**
   * What the guard does not forbid: a won opportunity can go back to
   * negotiation, and lost or archived ones can go anywhere, back to `NOVA`
   * included.
   */
  lemma GuardConsequences()
    ensures StatusRejection(GANHA, PERDIDA) == Some(WonToLost)
    ensures StatusRejection(GANHA, NOVA) == Some(ReopenWon)
    ensures StatusRejection(NOVA, GANHA) == Some(NovaOnly)
    ensures StatusRejection(NOVA, NOVA).Some? && StatusRejection(EM_NEGOCIACAO, EM_NEGOCIACAO).Some?
    ensures StatusRejection(EM_NEGOCIACAO, ARQUIVADA).None?
    ensures StatusRejection(GANHA, GANHA).None? && StatusRejection(GANHA, EM_NEGOCIACAO).None?
    ensures StatusRejection(ARQUIVADA, EM_NEGOCIACAO).None? && StatusRejection(PERDIDA, NOVA).None?
  {
  }

  /** Only `NOVA` and `EM_NEGOCIACAO` reject staying where they are. */
  lemma {:induction false} SelfTransitions(s: StatusOportunidade)
    ensures StatusRejection(s, s).Some? <==> s == NOVA || s == EM_NEGOCIACAO
  {
  }

  // --------------------------------------------------------------- references

  /** Every stored opportunity refers to a client and a user that exist. */
  ghost predicate RefsResolve(store: map<int, Oportunidade>, clientes: set<int>, usuarios: set<int>) {
    forall k | k in store :: store[k].cliente in clientes && store[k].usuario in usuarios
  }

  /** The id of a request reference: absent when the object or its id is null. */
  function RefId(r: Option<Referencia>): Option<int> {
    if r.Some? then r.value.id else None
  }

  /**
   * The partial update's re-resolution of one reference: a null reference or
   * the stored id keeps the current one without a lookup; any other id must
   * exist. `None` stands for the failed lookup.
   */
  function Reassign(current: int, given: Option<Referencia>, known: set<int>): (r: Option<int>)
    ensures r.Some? ==> r.value == current || (r.value in known && RefId(given) == Some(r.value))
    ensures r.None? <==> RefId(given).Some? && RefId(given).value != current && RefId(given).value !in known
  {
    match RefId(given)
    case None => Some(current)
    case Some(n) => if n == current then Some(current) else if n in known then Some(n) else None
  }

  // --------------------------------------------------------------------- save

  /** `save`: the new record, or the error raised; the client is checked before the user. */
  function Saved(input: OportunidadeInput, today: LocalDate, clientes: set<int>, usuarios: set<int>): (r: Result<Oportunidade, OportunidadeError>)
    ensures RefId(input.cliente).None? ==> r == Failure(ClienteRequired)
    ensures RefId(input.cliente).Some? && RefId(input.cliente).value !in clientes ==> r == Failure(ClienteNotFound)
    ensures RefId(input.cliente).Some? && RefId(input.cliente).value in clientes ==>
      && (RefId(input.usuario).None? ==> r == Failure(UsuarioRequired))
      && (RefId(input.usuario).Some? && RefId(input.usuario).value !in usuarios ==> r == Failure(UsuarioNotFound))
    ensures r.Success? <==>
      && RefId(input.cliente).Some? && RefId(input.cliente).value in clientes
      && RefId(input.usuario).Some? && RefId(input.usuario).value in usuarios
    ensures r.Failure? ==> r.error.Status() != INTERNAL_SERVER_ERROR
    ensures r.Failure? ==> (r.error.Status() == BAD_REQUEST <==>
      RefId(input.cliente).None? || (RefId(input.cliente).value in clientes && RefId(input.usuario).None?))
    ensures r.Success? ==>
      && r.value.cliente == RefId(input.cliente).value && r.value.usuario == RefId(input.usuario).value
      && r.value.status == (if input.status.Some? then input.status.value else NOVA)
      && r.value.dataCriacao == (if input.dataCriacao.Some? then input.dataCriacao.value else today)
      && r.value.titulo == input.titulo && r.value.descricao == input.descricao
      && r.value.valorEstimado == input.valorEstimado
  {
    var status := input.status.GetOr(NOVA);
    var data := input.dataCriacao.GetOr(today);
    match RefId(input.cliente)
    case None => Failure(ClienteRequired)
    case Some(c) =>
      if c !in clientes then Failure(ClienteNotFound)
      else match RefId(input.usuario)
      case None => Failure(UsuarioRequired)
      case Some(u) =>
        if u !in usuarios then Failure(UsuarioNotFound)
        else Success(Oportunidade(input.titulo, input.descricao, input.valorEstimado, status, data, c, u))
  }

  /** A saved record refers to a client and a user that exist, so saving it keeps every reference resolvable. */
  lemma {:induction false} SaveKeepsRefs(store: map<int, Oportunidade>, id: int, input: OportunidadeInput, today: LocalDate, clientes: set<int>, usuarios: set<int>)
    requires RefsResolve(store, clientes, usuarios)
    requires Saved(input, today, clientes, usuarios).Success?
    ensures RefsResolve(store[id := Saved(input, today, clientes, usuarios).value], clientes, usuarios)
  {
  }

  // ------------------------------------------------------------------- update

  /** `update(Long, Oportunidade)`: non-null fields overwrite, references re-resolve when they change. */
  function Patched(store: map<int, Oportunidade>, id: int, input: OportunidadeInput, clientes: set<int>, usuarios: set<int>): (r: Result<Oportunidade, OportunidadeError>)
    ensures id !in store ==> r == Failure(OportunidadeNotFound)
    ensures id in store ==>
      (RefId(input.cliente).Some? && RefId(input.cliente).value != store[id].cliente && RefId(input.cliente).value !in clientes
       ==> r == Failure(ClienteNotFound))
    ensures id in store && r != Failure(ClienteNotFound) ==>
      (RefId(input.usuario).Some? && RefId(input.usuario).value != store[id].usuario && RefId(input.usuario).value !in usuarios
       ==> r == Failure(UsuarioNotFound))
    ensures r.Failure? ==> r.error.Status() == NOT_FOUND
    ensures r.Success? ==> id in store
  {
    if id !in store then Failure(OportunidadeNotFound)
    else
      var o := store[id];
      match Reassign(o.cliente, input.cliente, clientes)
      case None => Failure(ClienteNotFound)
      case Some(c) =>
        match Reassign(o.usuario, input.usuario, usuarios)
        case None => Failure(UsuarioNotFound)
        case Some(u) => Success(Edited(o, input).(cliente := c, usuario := u))
  }

  /** The partial update's plain fields: each non-null input field overwrites the stored one. */
  function Edited(o: Oportunidade, input: OportunidadeInput): Oportunidade {
    o.(titulo := if input.titulo.Some? then input.titulo else o.titulo,
       descricao := if input.descricao.Some? then input.descricao else o.descricao,
       valorEstimado := if input.valorEstimado.Some? then input.valorEstimado else o.valorEstimado,
       status := input.status.GetOr(o.status))
  }

  /** The partial update's merge policy: a null field keeps the stored value, a non-null one overwrites; the date never changes. */
  lemma {:induction false} PatchMergePolicy(store: map<int, Oportunidade>, id: int, input: OportunidadeInput, clientes: set<int>, usuarios: set<int>)
    requires Patched(store, id, input, clientes, usuarios).Success?
    ensures id in store
    ensures var o, r := store[id], Patched(store, id, input, clientes, usuarios).value;
      && r.titulo == (if input.titulo.None? then o.titulo else input.titulo)
      && r.descricao == (if input.descricao.None? then o.descricao else input.descricao)
      && r.valorEstimado == (if input.valorEstimado.None? then o.valorEstimado else input.valorEstimado)
      && r.status == (if input.status.None? then o.status else input.status.value)
      && r.dataCriacao == o.dataCriacao
      && (RefId(input.cliente).None? ==> r.cliente == o.cliente)
      && (RefId(input.usuario).None? ==> r.usuario == o.usuario)
      && (RefId(input.cliente).Some? ==> r.cliente == RefId(input.cliente).value)
      && (RefId(input.usuario).Some? ==> r.usuario == RefId(input.usuario).value)
  {
  }

  /**
   * The partial update fails on a reference exactly when it names a
   * different client or user that does not exist; resubmitting the stored id
   * never fails, even if that client or user is gone.
   */
  lemma {:induction false} PatchSucceedsIff(store: map<int, Oportunidade>, id: int, input: OportunidadeInput, clientes: set<int>, usuarios: set<int>)
    requires id in store
    ensures Patched(store, id, input, clientes, usuarios).Success? <==>
      && (RefId(input.cliente).Some? && RefId(input.cliente).value != store[id].cliente ==> RefId(input.cliente).value in clientes)
      && (RefId(input.usuario).Some? && RefId(input.usuario).value != store[id].usuario ==> RefId(input.usuario).value in usuarios)
  {
  }

  /** While every stored reference resolves, the partial update keeps them resolving. */
  lemma {:induction false} PatchKeepsRefs(store: map<int, Oportunidade>, id: int, input: OportunidadeInput, clientes: set<int>, usuarios: set<int>)
    requires RefsResolve(store, clientes, usuarios)
    requires Patched(store, id, input, clientes, usuarios).Success?
    ensures RefsResolve(store[id := Patched(store, id, input, clientes, usuarios).value], clientes, usuarios)
  {
    assert store[id].cliente in clientes && store[id].usuario in usuarios;
  }

  /**
   * The partial update writes `status` without the guard: a won opportunity
   * can be set back to `NOVA`, which `atualizarStatusOportunidade` refuses.
   */
  lemma PatchBypassesGuard(o: Oportunidade, clientes: set<int>, usuarios: set<int>)
    requires o.status == GANHA
    ensures var store := map[1 := o];
      var input := OportunidadeInput(None, None, None, None, Some(NOVA), None, None, None);
      && Patched(store, 1, input, clientes, usuarios) == Success(o.(status := NOVA))
      && StatusChanged(store, 1, NOVA) == Failure(ReopenWon)
  {
  }

  /** `update(Oportunidade)`: the id must exist, then both references must resolve, then the input replaces the record. */
  function Replaced(store: map<int, Oportunidade>, input: OportunidadeInput, clientes: set<int>, usuarios: set<int>): (r: Result<Oportunidade, OportunidadeError>)
    requires input.status.Some? && input.dataCriacao.Some?
    ensures input.id.None? || input.id.value !in store ==> r == Failure(OportunidadeNotFound)
    ensures input.id.Some? && input.id.value in store ==>
      && (RefId(input.cliente).None? ==> r == Failure(NullReference))
      && (RefId(input.cliente).Some? && RefId(input.cliente).value !in clientes ==> r == Failure(ClienteNotFound))
    ensures input.id.Some? && input.id.value in store && RefId(input.cliente).Some? && RefId(input.cliente).value in clientes ==>
      && (RefId(input.usuario).None? ==> r == Failure(NullReference))
      && (RefId(input.usuario).Some? && RefId(input.usuario).value !in usuarios ==> r == Failure(UsuarioNotFound))
    ensures r.Failure? ==> (r.error.Status() == INTERNAL_SERVER_ERROR <==> r.error == NullReference)
    ensures r.Success? <==>
      && input.id.Some? && input.id.value in store
      && RefId(input.cliente).Some? && RefId(input.cliente).value in clientes
      && RefId(input.usuario).Some? && RefId(input.usuario).value in usuarios
    ensures r.Success? ==>
      && r.value.cliente == RefId(input.cliente).value && r.value.usuario == RefId(input.usuario).value
      && r.value.titulo == input.titulo && r.value.descricao == input.descricao
      && r.value.valorEstimado == input.valorEstimado
      && r.value.status == input.status.value && r.value.dataCriacao == input.dataCriacao.value
  {
    if input.id.None? || input.id.value !in store then Failure(OportunidadeNotFound)
    else match RefId(input.cliente)
    case None => Failure(NullReference)
    case Some(c) =>
      if c !in clientes then Failure(ClienteNotFound)
      else match RefId(input.usuario)
      case None => Failure(NullReference)
      case Some(u) =>
        if u !in usuarios then Failure(UsuarioNotFound)
        else Success(Oportunidade(input.titulo, input.descricao, input.valorEstimado,
                                  input.status.value, input.dataCriacao.value, c, u))
  }

  /** The whole-record update can set any status at all, with no guard. */
  lemma ReplaceBypassesGuard(store: map<int, Oportunidade>, input: OportunidadeInput, clientes: set<int>, usuarios: set<int>)
    requires input.status.Some? && input.dataCriacao.Some?
    requires Replaced(store, input, clientes, usuarios).Success?
    ensures forall s: StatusOportunidade ::
      Replaced(store, input.(status := Some(s)), clientes, usuarios) ==
      Success(Replaced(store, input, clientes, usuarios).value.(status := s))
  {
  }

  /** While every stored reference resolves, the whole-record update keeps them resolving. */
  lemma {:induction false} ReplaceKeepsRefs(store: map<int, Oportunidade>, input: OportunidadeInput, clientes: set<int>, usuarios: set<int>)
    requires input.status.Some? && input.dataCriacao.Some?
    requires RefsResolve(store, clientes, usuarios)
    requires Replaced(store, input, clientes, usuarios).Success?
    ensures RefsResolve(store[input.id.value := Replaced(store, input, clientes, usuarios).value], clientes, usuarios)
  {
  }

  // ------------------------------------------------------------------- status

  /** `atualizarStatusOportunidade`: the record with its new status, or the error raised. */
  function StatusChanged(store: map<int, Oportunidade>, id: int, novo: StatusOportunidade): (r: Result<Oportunidade, OportunidadeError>)
    ensures id !in store ==> r == Failure(OportunidadeNotFound)
    ensures id in store ==> (r.Success? <==> novo in AllowedTargets(store[id].status))
    ensures id in store && r.Failure? ==> Some(r.error) == StatusRejection(store[id].status, novo)
    ensures r.Failure? ==> (r.error.Status() == NOT_FOUND <==> id !in store)
    ensures r.Success? ==> r.value.status == novo && r.value.(status := store[id].status) == store[id]
  {
    if id !in store then Failure(OportunidadeNotFound)
    else
      GuardMatchesTable(store[id].status, novo);
      match StatusRejection(store[id].status, novo)
      case Some(e) => Failure(e)
      case None => Success(store[id].(status := novo))
  }

  /** A status change keeps every reference of the store as it was, so it keeps them resolving; so does a deletion. */
  lemma {:induction false} StatusChangeKeepsRefs(store: map<int, Oportunidade>, id: int, novo: StatusOportunidade, clientes: set<int>, usuarios: set<int>)
    requires RefsResolve(store, clientes, usuarios)
    ensures StatusChanged(store, id, novo).Success? ==>
      RefsResolve(store[id := StatusChanged(store, id, novo).value], clientes, usuarios)
    ensures RefsResolve(store - {id}, clientes, usuarios)
  {
  }

  /** Guarded status changes compose along the table: from `NOVA`, `GANHA` is reached only through `EM_NEGOCIACAO`. */
  lemma {:induction false} WonOnlyThroughNegotiation(store: map<int, Oportunidade>, id: int)
    requires id in store && store[id].status == NOVA
    ensures StatusChanged(store, id, GANHA).Failure?
    ensures var s1 := StatusChanged(store, id, EM_NEGOCIACAO);
      s1.Success? && StatusChanged(store[id := s1.value], id, GANHA).Success?
  {
  }

  // ------------------------------------------------------------------ service

  /** `OportunidadeService` over its repository; `nextId` stands for the identity column. */
  class OportunidadeService {
    var repository: map<int, Oportunidade>
    var nextId: int

    ghost predicate Valid()
      reads this
    {
      forall k | k in repository :: k < nextId
    }

    constructor ()
      ensures Valid() && repository == map[]
    {
      repository := map[];
      nextId := 1;
    }

    /** `save`: copy the fields, apply the defaults, resolve client then user, then insert under a fresh id. */
    method Save(input: OportunidadeInput, today: LocalDate, clientes: set<int>, usuarios: set<int>) returns (r: Result<int, OportunidadeError>)
      requires Valid()
      modifies this
      ensures Valid()
      ensures Saved(input, today, clientes, usuarios).Failure? ==>
        r == Failure(Saved(input, today, clientes, usuarios).error) && repository == old(repository) && nextId == old(nextId)
      ensures Saved(input, today, clientes, usuarios).Success? ==>
        && r == Success(old(nextId)) && old(nextId) !in old(repository)
        && repository == old(repository)[old(nextId) := Saved(input, today, clientes, usuarios).value]
        && nextId == old(nextId) + 1
      ensures RefsResolve(old(repository), clientes, usuarios) ==> RefsResolve(repository, clientes, usuarios)
    {
      var nova := Oportunidade(None, None, None, NOVA, today, 0, 0);
      nova := nova.(titulo := input.titulo, descricao := input.descricao, valorEstimado := input.valorEstimado);
      if input.status.Some? {
        nova := nova.(status := input.status.value);
      }
      if input.dataCriacao.Some? {
        nova := nova.(dataCriacao := input.dataCriacao.value);
      }
      if input.cliente.None? || input.cliente.value.id.None? {
        return Failure(ClienteRequired);
      }
      var clienteId := input.cliente.value.id.value;
      if clienteId !in clientes {
        return Failure(ClienteNotFound);
      }
      nova := nova.(cliente := clienteId);
      if input.usuario.None? || input.usuario.value.id.None? {
        return Failure(UsuarioRequired);
      }
      var usuarioId := input.usuario.value.id.value;
      if usuarioId !in usuarios {
        return Failure(UsuarioNotFound);
      }
      nova := nova.(usuario := usuarioId);
      if RefsResolve(repository, clientes, usuarios) {
        SaveKeepsRefs(repository, nextId, input, today, clientes, usuarios);
      }
      repository := repository[nextId := nova];
      r := Success(nextId);
      nextId := nextId + 1;
    }

    /** `update(Oportunidade)`: an existence check, both lookups, then the input replaces the stored record. */
    method Update(input: OportunidadeInput, clientes: set<int>, usuarios: set<int>) returns (r: Result<Oportunidade, OportunidadeError>)
      requires Valid()
      requires input.status.Some? && input.dataCriacao.Some?
      modifies this
      ensures Valid()
      ensures r == Replaced(old(repository), input, clientes, usuarios)
      ensures repository == if r.Success? then old(repository)[input.id.value := r.value] else old(repository)
      ensures nextId == old(nextId)
      ensures RefsResolve(old(repository), clientes, usuarios) ==> RefsResolve(repository, clientes, usuarios)
    {
      if input.id.None? || input.id.value !in repository {
        return Failure(OportunidadeNotFound);
      }
      if input.cliente.None? || input.cliente.value.id.None? {
        return Failure(NullReference);
      }
      var clienteId := input.cliente.value.id.value;
      if clienteId !in clientes {
        return Failure(ClienteNotFound);
      }
      if input.usuario.None? || input.usuario.value.id.None? {
        return Failure(NullReference);
      }
      var usuarioId := input.usuario.value.id.value;
      if usuarioId !in usuarios {
        return Failure(UsuarioNotFound);
      }
      var oportunidade := Oportunidade(input.titulo, input.descricao, input.valorEstimado,
                                       input.status.value, input.dataCriacao.value, clienteId, usuarioId);
      if RefsResolve(repository, clientes, usuarios) {
        ReplaceKeepsRefs(repository, input, clientes, usuarios);
      }
      repository := repository[input.id.value := oportunidade];
      r := Success(oportunidade);
    }

    /** `update(Long, Oportunidade)`: load, overwrite the non-null fields, re-resolve changed references, save. */
    method UpdateById(id: int, input: OportunidadeInput, clientes: set<int>, usuarios: set<int>) returns (r: Result<Oportunidade, OportunidadeError>)
      requires Valid()
      modifies this
      ensures Valid()
      ensures r == Patched(old(repository), id, input, clientes, usuarios)
      ensures repository == if r.Success? then old(repository)[id := r.value] else old(repository)
      ensures nextId == old(nextId)
      ensures RefsResolve(old(repository), clientes, usuarios) ==> RefsResolve(repository, clientes, usuarios)
    {
      if id !in repository {
        return Failure(OportunidadeNotFound);
      }
      var existente := repository[id];
      if input.titulo.Some? {
        existente := existente.(titulo := input.titulo);
      }
      if input.descricao.Some? {
        existente := existente.(descricao := input.descricao);
      }
      if input.valorEstimado.Some? {
        existente := existente.(valorEstimado := input.valorEstimado);
      }
      if input.status.Some? {
        existente := existente.(status := input.status.value);
      }
      assert existente == Edited(repository[id], input);
      var cliente := ResolveReference(existente.cliente, input.cliente, clientes);
      if cliente.None? {
        return Failure(ClienteNotFound);
      }
      existente := existente.(cliente := cliente.value);
      var usuario := ResolveReference(existente.usuario, input.usuario, usuarios);
      if usuario.None? {
        return Failure(UsuarioNotFound);
      }
      existente := existente.(usuario := usuario.value);
      if RefsResolve(repository, clientes, usuarios) {
        PatchKeepsRefs(repository, id, input, clientes, usuarios);
      }
      repository := repository[id := existente];
      r := Success(existente);
    }

    /**
     * The partial update's handling of one reference: a non-null id that
     * differs from the current one is looked up, and `None` stands for the
     * failed lookup.
     */
    method ResolveReference(current: int, given: Option<Referencia>, known: set<int>) returns (r: Option<int>)
      ensures r == Reassign(current, given, known)
    {
      r := Some(current);
      if given.Some? && given.value.id.Some? {
        var novoId := given.value.id.value;
        if current != novoId {
          if novoId !in known {
            return None;
          }
          r := Some(novoId);
        }
      }
    }

    /** `deleteById`: an existence check, then removal of that id only. */
    method DeleteById(id: int) returns (r: Result<(), OportunidadeError>)
      requires Valid()
      modifies this
      ensures Valid()
      ensures r == if id in old(repository) then Success(()) else Failure(OportunidadeNotFound)
      ensures repository == old(repository) - {id}
      ensures nextId == old(nextId)
    {
      if id !in repository {
        return Failure(OportunidadeNotFound);
      }
      repository := repository - {id};
      r := Success(());
    }

    /** `atualizarStatusOportunidade`: load, run the guard, then write the new status only. */
    method ChangeStatus(id: int, novo: StatusOportunidade) returns (r: Result<Oportunidade, OportunidadeError>)
      requires Valid()
      modifies this
      ensures Valid()
      ensures r == StatusChanged(old(repository), id, novo)
      ensures repository == if r.Success? then old(repository)[id := r.value] else old(repository)
      ensures nextId == old(nextId)
    {
      if id !in repository {
        return Failure(OportunidadeNotFound);
      }
      var existente := repository[id];
      if existente.status == GANHA && novo == NOVA {
        return Failure(ReopenWon);
      }
      if existente.status == GANHA && novo == PERDIDA {
        return Failure(WonToLost);
      }
      if existente.status == NOVA && !(novo == EM_NEGOCIACAO || novo == PERDIDA) {
        return Failure(NovaOnly);
      }
      if existente.status == EM_NEGOCIACAO && !(novo == GANHA || novo == PERDIDA || novo == ARQUIVADA) {
        return Failure(NegociacaoOnly);
      }
      existente := existente.(status := novo);
      repository := repository[id := existente];
      r := Success(existente);
    }
  }
}
