/**
 * `LoginService`: authentication, unlock, password change, lookup and deletion of logins.
 *
 * The login table is the field `logins`, a map from each row's id to the row. Every
 * operation loads a row, materialises a `Login` entity from it, changes the entity
 * through its own methods and writes the entity back (`UpdateAsync`) or deletes the row
 * (`RemoveAsync`). Each operation runs alone and atomically.
 */
module LoginServices {
  import opened Common
  import opened Hashing
  import opened LoginEntity

  const InvalidCredentials := "CPF ou senha inválidos."
  const BlockedMessage := "Usuário bloqueado por múltiplas tentativas de login falhas."
  const NotFoundMessage := "Login não encontrado."

  /**
   * How an operation ends: a value, or the exception it throws (`UnauthorizedAccessException`,
   * `InvalidOperationException`, `KeyNotFoundException`) with its message.
   */
  datatype Outcome<T> = Ok(value: T) | Unauthorized(message: string) | Blocked(message: string) | NotFound(message: string)

  /** Every row is stored under its own id, as the table's primary key requires. */
  ghost predicate WellKeyed(logins: map<Guid, LoginRecord>) {
    forall k :: k in logins ==> logins[k].id == k
  }

  /** Every stored counter lies in the range the lockout machine keeps. */
  ghost predicate CountersInRange(logins: map<Guid, LoginRecord>) {
    forall k :: k in logins ==> InRange(logins[k])
  }

  predicate CpfRegistered(logins: map<Guid, LoginRecord>, cpf: string) {
    exists k :: k in logins && logins[k].numeroCpf == cpf
  }

  /** What the login request carries (`LoginRequestDto`). */
  datatype LoginRequest = LoginRequest(numeroCpf: string, senha: Password)

  /** The store and the outcome after an authentication attempt against one found row. */
  datatype Authentication = Authentication(outcome: Outcome<LoginRecord>, logins: map<Guid, LoginRecord>)

  /**
   * `AutenticarAsync` once the row `id` has been found by CPF. A blocked login is refused
   * before anything is written; otherwise the login after `VerificarSenha` is written back,
   * and the caller gets the reloaded row on success and the unknown-CPF error on failure.
   */
  function Authenticate(logins: map<Guid, LoginRecord>, id: Guid, senha: Password, hs: Bcrypt): (a: Authentication)
    requires id in logins
    ensures a.logins.Keys == logins.Keys
    ensures forall k :: k in logins && k != id ==> a.logins[k] == logins[k]
    ensures Bloqueado(logins[id]) ==> a == Authentication(Blocked(BlockedMessage), logins)
    ensures !Bloqueado(logins[id]) ==> a.logins[id] == Attempt(logins[id], senha, hs).after
    ensures a.outcome.Ok? <==> !Bloqueado(logins[id]) && hs.verify(senha, logins[id].senhaHash)
    ensures a.outcome.Ok? ==> a.outcome.value == a.logins[id] && a.logins[id].tentativasLogin == 0
    ensures !Bloqueado(logins[id]) && !hs.verify(senha, logins[id].senhaHash) ==>
      a.outcome == Unauthorized(InvalidCredentials)
      && a.logins[id].tentativasLogin as int == logins[id].tentativasLogin as int + 1
    ensures CountersInRange(logins) ==> CountersInRange(a.logins)
  {
    var l := logins[id];
    if Bloqueado(l) then Authentication(Blocked(BlockedMessage), logins)
    else
      var v := Attempt(l, senha, hs);
      var depois := logins[id := v.after];
      if v.autenticado then Authentication(Ok(depois[id]), depois)
      else Authentication(Unauthorized(InvalidCredentials), depois)
  }

  class LoginService {
    var logins: map<Guid, LoginRecord>
    const bcrypt: Bcrypt

    ghost predicate Valid()
      reads this
    {
      WellKeyed(logins)
    }

    constructor (inicial: map<Guid, LoginRecord>, bcrypt: Bcrypt)
      requires WellKeyed(inicial)
      ensures Valid() && logins == inicial && this.bcrypt == bcrypt
    {
      logins := inicial;
      this.bcrypt := bcrypt;
    }

    /** `GetByCpfAsync`: some row with that CPF, or none. CPFs are not unique, so any match may come back. */
    method GetByCpf(cpf: string) returns (found: Option<LoginRecord>)
      requires Valid()
      ensures found.None? <==> !CpfRegistered(logins, cpf)
      ensures found.Some? ==> found.value.id in logins && logins[found.value.id] == found.value
      ensures found.Some? ==> found.value.numeroCpf == cpf
    {
      if k :| k in logins && logins[k].numeroCpf == cpf {
        found := Some(logins[k]);
      } else {
        found := None;
      }
    }

    /** `UpdateAsync`: store the entity's state under its id. */
    method Update(login: Login)
      requires Valid()
      modifies this
      ensures Valid()
      ensures logins == old(logins)[login.id := login.State()]
    {
      logins := logins[login.id := login.State()];
    }

    method BuscarPorCpf(cpf: string) returns (o: Outcome<LoginRecord>)
      requires Valid()
      ensures o.Ok? || o == NotFound(NotFoundMessage)
      ensures o.Ok? <==> CpfRegistered(logins, cpf)
      ensures o.Ok? ==> o.value.numeroCpf == cpf && o.value.id in logins && logins[o.value.id] == o.value
    {
      var found := GetByCpf(cpf);
      if found.None? {
        return NotFound(NotFoundMessage);
      }
      return Ok(found.value);
    }

    method BuscarPorId(id: Guid) returns (o: Outcome<LoginRecord>)
      ensures o.Ok? || o == NotFound(NotFoundMessage)
      ensures o.Ok? <==> id in logins
      ensures o.Ok? ==> o.value == logins[id]
    {
      if id !in logins {
        return NotFound(NotFoundMessage);
      }
      return Ok(logins[id]);
    }

    /**
     * `AutenticarAsync`. An unknown CPF and a wrong password end the same way, with the
     * same exception and message. `found` names the row the lookup chose.
     */
    method Autenticar(request: LoginRequest) returns (o: Outcome<LoginRecord>, ghost found: Option<Guid>)
      requires Valid()
      modifies this
      ensures Valid()
      ensures found.None? <==> !CpfRegistered(old(logins), request.numeroCpf)
      ensures found.None? ==> o == Unauthorized(InvalidCredentials) && logins == old(logins)
      ensures found.Some? ==>
        && found.value in old(logins)
        && old(logins)[found.value].numeroCpf == request.numeroCpf
        && Authentication(o, logins) == Authenticate(old(logins), found.value, request.senha, bcrypt)
      ensures CountersInRange(old(logins)) ==> CountersInRange(logins)
    {
      var row := GetByCpf(request.numeroCpf);
      if row.None? {
        return Unauthorized(InvalidCredentials), None;
      }
      found := Some(row.value.id);
      var login := new Login.FromRecord(row.value);
      var bloqueado := login.EstaBloqueado();
      if bloqueado {
        return Blocked(BlockedMessage), found;
      }
      var autenticado := login.VerificarSenha(request.senha, bcrypt);
      Update(login);
      if !autenticado {
        return Unauthorized(InvalidCredentials), found;
      }
      o := Ok(logins[login.id]);
    }

    /** `AtualizarSenhaAsync`: only that row's hash changes, to a fresh hash of `novaSenha`. */
    method AtualizarSenha(id: Guid, novaSenha: Password, salt: Salt) returns (o: Outcome<()>)
      requires Valid()
      modifies this
      ensures Valid()
      ensures id !in old(logins) ==> o == NotFound(NotFoundMessage) && logins == old(logins)
      ensures id in old(logins) ==>
        && o == Ok(())
        && logins == old(logins)[id := old(logins)[id].(senhaHash := bcrypt.hash(novaSenha, salt))]
        && bcrypt.verify(novaSenha, logins[id].senhaHash)
      ensures CountersInRange(old(logins)) ==> CountersInRange(logins)
    {
      if id !in logins {
        return NotFound(NotFoundMessage);
      }
      var login := new Login.FromRecord(logins[id]);
      login.DefinirSenha(novaSenha, salt, bcrypt);
      Update(login);
      o := Ok(());
    }

    /** `DeleteAsync`: exactly the row `id` disappears. */
    method Delete(id: Guid) returns (o: Outcome<()>)
      requires Valid()
      modifies this
      ensures Valid()
      ensures id !in old(logins) ==> o == NotFound(NotFoundMessage) && logins == old(logins)
      ensures id in old(logins) ==> o == Ok(()) && logins == old(logins) - {id}
      ensures CountersInRange(old(logins)) ==> CountersInRange(logins)
    {
      if id !in logins {
        return NotFound(NotFoundMessage);
      }
      logins := logins - {id};
      o := Ok(());
    }

    /** `DesbloquearUsuarioAsync`: only that row's counter changes, to 0. */
    method DesbloquearUsuario(id: Guid) returns (o: Outcome<()>)
      requires Valid()
      modifies this
      ensures Valid()
      ensures id !in old(logins) ==> o == NotFound(NotFoundMessage) && logins == old(logins)
      ensures id in old(logins) ==> o == Ok(()) && logins == old(logins)[id := Desbloqueado(old(logins)[id])]
      ensures CountersInRange(old(logins)) ==> CountersInRange(logins)
    {
      if id !in logins {
        return NotFound(NotFoundMessage);
      }
      var login := new Login.FromRecord(logins[id]);
      login.Desbloquear();
      Update(login);
      o := Ok(());
    }
  }
}
