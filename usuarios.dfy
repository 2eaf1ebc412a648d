/**
 * `UsuarioService`: registering a user under an email not yet in use
 * (compared ignoring case) and overwriting a stored user's fields.
 */
module Usuarios {
  import opened Wrappers
  import opened Text

  /** A stored or submitted `Usuario`; its id is its key in the repository. Every field may be null. */
  datatype Usuario = Usuario(
    nome: Option<string>,
    email: Option<string>,
    senha: Option<string>,
    foto: Option<string>,
    telefone: Option<string>,
    cargo: Option<string>)

  // ------------------------------------------------------------------ emails

  /**
   * The row test of `findByEmailIgnoreCase`: a null parameter matches a
   * null column, any other matches a non-null column equal to it ignoring
   * case.
   */
  predicate EmailMatch(stored: Option<string>, given: Option<string>) {
    if given.None? then stored.None?
    else stored.Some? && SameIgnoringCase(stored.value, given.value)
  }

  /** Some stored user has an email the finder would match. */
  predicate EmailInUse(store: map<int, Usuario>, email: Option<string>) {
    exists k | k in store :: EmailMatch(store[k].email, email)
  }

  /** No two stored users share an email, ignoring case. */
  predicate EmailsUnique(store: map<int, Usuario>) {
    forall i, j | i in store && j in store && i != j :: !EmailMatch(store[i].email, store[j].email)
  }

  /** The finder's match is symmetric, so uniqueness does not depend on which user is looked up. */
  lemma EmailMatchSymmetric(a: Option<string>, b: Option<string>)
    ensures EmailMatch(a, b) <==> EmailMatch(b, a)
  {
  }

  /**
   * A stored email is found when looked up in any letter case: the given
   * email may differ from it only by swapping ASCII letters between upper
   * and lower case.
   */
  lemma {:induction false} EmailFoundIgnoringCase(store: map<int, Usuario>, k: int, email: string)
    requires k in store && store[k].email.Some?
    requires |email| == |store[k].email.value|
    requires forall i :: 0 <= i < |email| ==>
      var a, b := store[k].email.value[i], email[i];
      a == b || ('A' <= a <= 'Z' && b == (a as int + 32) as char) || ('A' <= b <= 'Z' && a == (b as int + 32) as char)
    ensures EmailInUse(store, Some(email))
  {
    var stored := store[k].email.value;
    assert Lower(stored) == Lower(email);
    assert EmailMatch(store[k].email, Some(email));
  }

  /**
   * Inserting a user whose email is not in use keeps the emails unique, and
   * the same email, in any letter case, is in use afterwards.
   */
  lemma {:induction false} RegisterKeepsEmailsUnique(store: map<int, Usuario>, id: int, u: Usuario)
    requires EmailsUnique(store)
    requires id !in store && !EmailInUse(store, u.email)
    ensures EmailsUnique(store[id := u])
    ensures EmailInUse(store[id := u], u.email)
  {
    var s := store[id := u];
    forall i, j | i in s && j in s && i != j
      ensures !EmailMatch(s[i].email, s[j].email)
    {
      if i == id {
        EmailMatchSymmetric(s[i].email, s[j].email);
        assert !EmailMatch(store[j].email, u.email);
      } else if j == id {
        assert !EmailMatch(store[i].email, u.email);
      }
    }
    assert EmailMatch(s[id].email, u.email);
  }

  // ------------------------------------------------------------------ setters

  /** `setCargo` as written: it stores its argument in `foto`. */
  function SetCargoAsWritten(u: Usuario, cargo: Option<string>): (r: Usuario)
    ensures r.cargo == u.cargo && r.foto == cargo
    ensures r.(foto := u.foto) == u
  {
    u.(foto := cargo)
  }

  /** `setCargo` as evidently intended: it stores its argument in `cargo`. */
  function SetCargo(u: Usuario, cargo: Option<string>): (r: Usuario)
    ensures r.cargo == cargo && r.foto == u.foto
    ensures r.(cargo := u.cargo) == u
  {
    u.(cargo := cargo)
  }

  /** The setter calls of `atualizarUsuario`, in order, over the setter `setCargo` as written. */
  function OverwrittenAsWritten(u: Usuario, dto: Usuario): Usuario {
    var v := u.(nome := dto.nome, email := dto.email, senha := dto.senha, telefone := dto.telefone, foto := dto.foto);
    SetCargoAsWritten(v, dto.cargo)
  }

  /** The setter calls of `atualizarUsuario`, in order, over the corrected `setCargo`. */
  function Overwritten(u: Usuario, dto: Usuario): Usuario {
    var v := u.(nome := dto.nome, email := dto.email, senha := dto.senha, telefone := dto.telefone, foto := dto.foto);
    SetCargo(v, dto.cargo)
  }

  /**
   * As written, the update stores the submitted `cargo` in `foto`, drops the
   * submitted `foto`, and keeps the stored `cargo`; every other field is the
   * submitted one, null included.
   */
  lemma {:induction false} UpdateAsWrittenAliasesFoto(u: Usuario, dto: Usuario)
    ensures OverwrittenAsWritten(u, dto) == dto.(foto := dto.cargo, cargo := u.cargo)
    ensures OverwrittenAsWritten(u, dto) == dto <==> dto.foto == dto.cargo && dto.cargo == u.cargo
  {
  }

  /** A concrete input on which the update as written loses both the new `cargo` and the new `foto`. */
  lemma UpdateAsWrittenLosesCargo()
    ensures var u := Usuario(None, None, None, None, None, Some("vendedor"));
      var dto := Usuario(None, None, None, Some("f.png"), None, Some("gerente"));
      && OverwrittenAsWritten(u, dto).cargo == Some("vendedor")
      && OverwrittenAsWritten(u, dto).foto == Some("gerente")
      && Overwritten(u, dto) == dto
  {
  }

  /** With the corrected setter the update replaces every field by the submitted one: no merge, null included. */
  lemma {:induction false} UpdateReplacesAllFields(u: Usuario, dto: Usuario)
    ensures Overwritten(u, dto) == dto
    ensures Overwritten(Overwritten(u, dto), dto) == Overwritten(u, dto)
  {
  }

  /**
   * The update does not look emails up: it can give a second user the
   * email of a first, in another letter case, which registration refuses.
   */
  lemma UpdateCanDuplicateEmail()
    ensures var store := map[1 := Usuario(None, Some("a@b"), None, None, None, None),
                             2 := Usuario(None, Some("c@b"), None, None, None, None)];
      var dto := store[2].(email := Some("A@b"));
      && EmailsUnique(store)
      && EmailInUse(store, dto.email)
      && !EmailsUnique(store[2 := Overwritten(store[2], dto)])
  {
    var store := map[1 := Usuario(None, Some("a@b"), None, None, None, None),
                     2 := Usuario(None, Some("c@b"), None, None, None, None)];
    var dto := store[2].(email := Some("A@b"));
    assert Lower("a@b")[0] == 'a' && Lower("c@b")[0] == 'c';
    assert !EmailMatch(store[1].email, store[2].email) && !EmailMatch(store[2].email, store[1].email);
    assert Lower("A@b") == Lower("a@b");
    EmailFoundIgnoringCase(store, 1, "A@b");
    var after := store[2 := Overwritten(store[2], dto)];
    UpdateReplacesAllFields(store[2], dto);
    assert EmailMatch(after[1].email, after[2].email);
  }

  // ------------------------------------------------------------------ service

  /** `UsuarioService` over its repository; `nextId` stands for the identity column. */
  class UsuarioService {
    var repository: map<int, Usuario>
    var nextId: int

    ghost predicate Valid()
      reads this
    {
      forall k | k in repository :: k < nextId
    }

    constructor ()
      ensures Valid() && repository == map[]
    {
      repository := map[];
      nextId := 1;
    }

    /** `cadastrarUsuario`: empty when the email is in use, otherwise the user is inserted under a fresh id. */
    method Cadastrar(usuario: Usuario) returns (r: Option<int>)
      requires Valid()
      modifies this
      ensures Valid()
      ensures EmailInUse(old(repository), usuario.email) ==> r.None? && repository == old(repository) && nextId == old(nextId)
      ensures !EmailInUse(old(repository), usuario.email) ==>
        && r == Some(old(nextId)) && old(nextId) !in old(repository)
        && repository == old(repository)[old(nextId) := usuario]
        && nextId == old(nextId) + 1
      ensures EmailsUnique(old(repository)) ==> EmailsUnique(repository)
    {
      if EmailInUse(repository, usuario.email) {
        return None;
      }
      if EmailsUnique(repository) {
        RegisterKeepsEmailsUnique(repository, nextId, usuario);
      }
      repository := repository[nextId := usuario];
      r := Some(nextId);
      nextId := nextId + 1;
    }

    /** `atualizarUsuario`: empty when the id is absent, otherwise every field is overwritten and saved. */
    method Atualizar(id: int, dto: Usuario) returns (r: Option<Usuario>)
      requires Valid()
      modifies this
      ensures Valid()
      ensures id !in old(repository) ==> r.None? && repository == old(repository)
      ensures id in old(repository) ==>
        && r == Some(Overwritten(old(repository)[id], dto))
        && repository == old(repository)[id := r.value]
      ensures nextId == old(nextId)
    {
      if id !in repository {
        return None;
      }
      var usuario := repository[id];
      usuario := usuario.(nome := dto.nome);
      usuario := usuario.(email := dto.email);
      usuario := usuario.(senha := dto.senha);
      usuario := usuario.(telefone := dto.telefone);
      usuario := usuario.(foto := dto.foto);
      usuario := SetCargo(usuario, dto.cargo);
      repository := repository[id := usuario];
      r := Some(usuario);
    }
  }
}
