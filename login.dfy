/**
 * The login entity and its lockout state machine.
 *
 * A login is Active while its failed-attempt counter is below `LimiteTentativas` and
 * Blocked from then on. A blocked login rejects every password without checking it; only
 * `Desbloquear` brings it back. `LoginRecord` is the stored row, the value the class
 * `Login` holds in its fields; `Attempt` is one call of `VerificarSenha` as a function on
 * that value.
 */
module LoginEntity {
  import opened Common
  import opened Hashing
  import UsuarioEntity

  /** Failed attempts at which a login counts as blocked. */
  const LimiteTentativas: int32 := 5

  datatype LoginRecord = LoginRecord(
    id: Guid,
    numeroCpf: string,
    senhaHash: Hash,
    usuarioId: Guid,
    tentativasLogin: int32)

  /** `EstaBloqueado`: the counter has reached the threshold. */
  predicate Bloqueado(l: LoginRecord) {
    l.tentativasLogin >= LimiteTentativas
  }

  /** The counter range every path through the lockout machine keeps. */
  predicate InRange(l: LoginRecord) {
    0 <= l.tentativasLogin <= LimiteTentativas
  }

  /** C#'s unchecked `++` on an `int`: one more, wrapping from the largest value to the smallest. */
  function Incrementado(n: int32): (r: int32)
    ensures n < MaxInt32 ==> r as int == n as int + 1
    ensures n == MaxInt32 ==> r == MinInt32
  {
    if n == MaxInt32 then MinInt32 else n + 1
  }

  /** `ResetarTentativas` / `Desbloquear` on the stored value: the counter back to zero. */
  function Desbloqueado(l: LoginRecord): (r: LoginRecord)
    ensures r.tentativasLogin == 0 && !Bloqueado(r) && InRange(r)
    ensures r.(tentativasLogin := l.tentativasLogin) == l
  {
    l.(tentativasLogin := 0)
  }

  /** The login after a call of `VerificarSenha`, and what the call returned. */
  datatype Attempted = Attempted(after: LoginRecord, autenticado: bool)

  /**
   * One call of `VerificarSenha(senha)`. It succeeds only on an unblocked login with a
   * password that verifies; it touches nothing but the counter; a blocked login is left
   * as it was; otherwise success resets the counter and failure adds exactly one.
   */
  function Attempt(l: LoginRecord, senha: Password, hs: Bcrypt): (a: Attempted)
    ensures a.autenticado <==> !Bloqueado(l) && hs.verify(senha, l.senhaHash)
    ensures a.after.(tentativasLogin := l.tentativasLogin) == l
    ensures Bloqueado(l) ==> a.after == l
    ensures !Bloqueado(l) && a.autenticado ==> a.after.tentativasLogin == 0
    ensures !Bloqueado(l) && !a.autenticado ==> a.after.tentativasLogin as int == l.tentativasLogin as int + 1
    ensures InRange(l) ==> InRange(a.after)
  {
    if Bloqueado(l) then Attempted(l, false)
    else if hs.verify(senha, l.senhaHash) then Attempted(Desbloqueado(l), true)
    else Attempted(l.(tentativasLogin := Incrementado(l.tentativasLogin)), false)
  }

  /** The registration data the login is made from (`UsuarioRequestDto.Cpf`, `.Senha`). */
  datatype CadastroRequest = CadastroRequest(cpf: string, senha: Password)

  /** The `Login` entity. Its methods mutate the counter and the hash in place. */
  class Login {
    var id: Guid
    var numeroCpf: string
    var senhaHash: Hash
    var usuarioId: Guid
    var tentativasLogin: int32

    /** The row this object holds. */
    function State(): LoginRecord
      reads this
    {
      LoginRecord(id, numeroCpf, senhaHash, usuarioId, tentativasLogin)
    }

    /**
     * `new Login(cadastroRequest, usuario)`. `novoId` is the value of `Guid.NewGuid()` and
     * `salt` the random salt `HashPassword` draws.
     */
    constructor (cadastro: CadastroRequest, usuario: UsuarioEntity.Usuario, novoId: Guid, salt: Salt, hs: Bcrypt)
      ensures State() == LoginRecord(novoId, cadastro.cpf, hs.hash(cadastro.senha, salt), usuario.id, 0)
      ensures hs.verify(cadastro.senha, senhaHash)
      ensures InRange(State()) && !Bloqueado(State())
    {
      id := novoId;
      numeroCpf := cadastro.cpf;
      usuarioId := usuario.id;
      new;
      DefinirSenha(cadastro.senha, salt, hs);
      tentativasLogin := 0;
    }

    /** The entity as the data layer materialises it from a stored row. */
    constructor FromRecord(l: LoginRecord)
      ensures State() == l
    {
      id, numeroCpf, senhaHash, usuarioId, tentativasLogin :=
        l.id, l.numeroCpf, l.senhaHash, l.usuarioId, l.tentativasLogin;
    }

    method EstaBloqueado() returns (b: bool)
      ensures b <==> tentativasLogin >= LimiteTentativas
    {
      b := tentativasLogin >= LimiteTentativas;
    }

    /** Replaces the hash with a fresh one of `senha`; the counter and blocked status stay. */
    method DefinirSenha(senha: Password, salt: Salt, hs: Bcrypt)
      modifies this
      ensures State() == old(State()).(senhaHash := hs.hash(senha, salt))
      ensures hs.verify(senha, senhaHash)
      ensures Bloqueado(State()) == Bloqueado(old(State()))
    {
      senhaHash := hs.hash(senha, salt);
    }

    method VerificarSenha(senha: Password, hs: Bcrypt) returns (senhaCorreta: bool)
      modifies this
      ensures Attempted(State(), senhaCorreta) == Attempt(old(State()), senha, hs)
    {
      var bloqueado := EstaBloqueado();
      if bloqueado {
        return false;
      }
      senhaCorreta := hs.verify(senha, senhaHash);
      if senhaCorreta {
        ResetarTentativas();
      } else {
        IncrementarTentativas();
      }
    }

    /** Public and unguarded: unlike `VerificarSenha` it can push the counter past the threshold. */
    method IncrementarTentativas()
      modifies this
      ensures State() == old(State()).(tentativasLogin := Incrementado(old(tentativasLogin)))
    {
      tentativasLogin := Incrementado(tentativasLogin);
    }

    method ResetarTentativas()
      modifies this
      ensures State() == Desbloqueado(old(State()))
    {
      tentativasLogin := 0;
    }

    method Desbloquear()
      modifies this
      ensures State() == Desbloqueado(old(State()))
    {
      ResetarTentativas();
    }
  }

  /** The guard matters: one direct `IncrementarTentativas` on a blocked login leaves the range. */
  lemma IncrementCanLeaveRange(l: LoginRecord)
    requires l.tentativasLogin == LimiteTentativas
    ensures !InRange(l.(tentativasLogin := Incrementado(l.tentativasLogin)))
  {
  }

  /** The result of a sequence of `VerificarSenha` calls with no unlock in between. */
  datatype Run = Run(after: LoginRecord, respostas: seq<bool>, verificacoes: nat)

  /**
   * Calls `VerificarSenha` once per guess, in order: the final login, each call's answer,
   * and how many guesses reached the hash comparison (the rest were refused as blocked).
   */
  function Replay(l: LoginRecord, palpites: seq<Password>, hs: Bcrypt): (r: Run)
    ensures |r.respostas| == |palpites| && r.verificacoes <= |palpites|
    ensures r.after.(tentativasLogin := l.tentativasLogin) == l
    ensures InRange(l) ==> InRange(r.after)
    decreases |palpites|
  {
    if palpites == [] then Run(l, [], 0)
    else
      var a := Attempt(l, palpites[0], hs);
      var rest := Replay(a.after, palpites[1..], hs);
      Run(rest.after, [a.autenticado] + rest.respostas,
          (if Bloqueado(l) then 0 else 1) + rest.verificacoes)
  }

  function Min(a: int, b: int): int {
    if a <= b then a else b
  }

  /**
   * Brute-force budget: against a login in range, a run of wrong guesses is answered
   * `false` every time, leaves the counter at min(start + guesses, 5), and lets at most
   * 5 - start of them reach the hash comparison.
   */
  lemma {:induction false} WrongGuessesLockOut(l: LoginRecord, palpites: seq<Password>, hs: Bcrypt)
    requires InRange(l)
    requires forall i :: 0 <= i < |palpites| ==> !hs.verify(palpites[i], l.senhaHash)
    ensures Replay(l, palpites, hs).after.tentativasLogin as int
         == Min(l.tentativasLogin as int + |palpites|, LimiteTentativas as int)
    ensures Replay(l, palpites, hs).verificacoes == Min(|palpites|, (LimiteTentativas - l.tentativasLogin) as int)
    ensures forall i :: 0 <= i < |palpites| ==> !Replay(l, palpites, hs).respostas[i]
    decreases |palpites|
  {
    if palpites != [] {
      var a := Attempt(l, palpites[0], hs);
      assert a.after.senhaHash == l.senhaHash;
      forall i | 0 <= i < |palpites[1..]| ensures !hs.verify(palpites[1..][i], a.after.senhaHash) {
        assert palpites[1..][i] == palpites[i + 1];
      }
      WrongGuessesLockOut(a.after, palpites[1..], hs);
      var r := Replay(l, palpites, hs);
      forall i | 0 <= i < |palpites| ensures !r.respostas[i] {
        if i > 0 {
          assert r.respostas[i] == Replay(a.after, palpites[1..], hs).respostas[i - 1];
        }
      }
    }
  }

  /** Blocked is absorbing: without an unlock, no guess changes the login, succeeds or is checked. */
  lemma {:induction false} BlockedIsAbsorbing(l: LoginRecord, palpites: seq<Password>, hs: Bcrypt)
    requires Bloqueado(l)
    ensures Replay(l, palpites, hs).after == l
    ensures Replay(l, palpites, hs).verificacoes == 0
    ensures forall i :: 0 <= i < |palpites| ==> !Replay(l, palpites, hs).respostas[i]
  {
    if palpites != [] {
      BlockedIsAbsorbing(l, palpites[1..], hs);
      var r := Replay(l, palpites, hs);
      forall i | 0 <= i < |palpites| ensures !r.respostas[i] {
        if i > 0 {
          assert r.respostas[i] == Replay(l, palpites[1..], hs).respostas[i - 1];
        }
      }
    }
  }

  /** Unlocking is idempotent and keeps the hash, so the right password then succeeds. */
  lemma UnlockThenCorrectPassword(l: LoginRecord, senha: Password, hs: Bcrypt)
    requires hs.verify(senha, l.senhaHash)
    ensures Desbloqueado(Desbloqueado(l)) == Desbloqueado(l)
    ensures Attempt(Desbloqueado(l), senha, hs) == Attempted(Desbloqueado(l), true)
  {
  }

  /**
   * The lockout scenario: a fresh login takes four wrong passwords and stays active, the
   * fifth blocks it, the right password is then refused and the counter stays at 5, an
   * unlock returns it to 0, and the right password succeeds.
   */
  lemma LockoutScenario(l: LoginRecord, senha: Password, errada: Password, hs: Bcrypt)
    requires l.tentativasLogin == 0
    requires hs.verify(senha, l.senhaHash) && !hs.verify(errada, l.senhaHash)
    ensures var quatro := Replay(l, [errada, errada, errada, errada], hs).after;
      quatro.tentativasLogin == 4 && !Bloqueado(quatro)
    ensures var cinco := Replay(l, [errada, errada, errada, errada, errada], hs).after;
      cinco.tentativasLogin == 5 && Bloqueado(cinco)
      && Attempt(cinco, senha, hs) == Attempted(cinco, false)
      && Attempt(Desbloqueado(cinco), senha, hs) == Attempted(Desbloqueado(cinco), true)
  {
    WrongGuessesLockOut(l, [errada, errada, errada, errada], hs);
    WrongGuessesLockOut(l, [errada, errada, errada, errada, errada], hs);
  }
}
