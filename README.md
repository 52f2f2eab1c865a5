# PulseManager login lockout, in Dafny

PulseManager is a CRUD API for a yard-management domain. Its only real logic is the
lockout of logins after repeated wrong passwords, the login service around it, and the
age-of-majority check applied when a user registers. This project models those three pieces
and proves what they promise.

- `common.dfy`, module `Common`: `Guid` (128-bit), `int32` (C#'s `int`), `Option`.
- `hashing.dfy`, module `Hashing`: BCrypt kept abstract. A `Hasher` is a pair of functions,
  `hash(password, salt)` and `verify(password, hash)`. The subset type `Bcrypt` holds the
  hashers for which a freshly made hash verifies its own password. Nothing else is assumed.
- `usuario.dfy`, module `UsuarioEntity`: date-only `DateTime` values, .NET's `AddYears`
  (including the Feb 29 to Feb 28 clamp), the age computation of `ValidarMaioridade` and
  its result.
- `login.dfy`, module `LoginEntity`: the stored row `LoginRecord` and the class `Login`,
  whose methods change its fields in place. It also holds the spec function `Attempt`,
  which is one call of `VerificarSenha` on a value, and `Replay`, which is a run of such
  calls, with lemmas about lockout.
- `login_service.dfy`, module `LoginServices`: the class `LoginService`. Its field `logins`
  is a map from id to row and stands for the login table. Each operation loads a row, builds
  a `Login` entity from it, changes it through the entity's methods and writes it back in
  the same step.

The hash function, its salt, `Guid.NewGuid()` and `DateTime.Today` are all parameters.
The blocked path of `AutenticarAsync` throws before `UpdateAsync`, so a refused attempt on a
blocked login writes nothing. Some descriptions of this service say a blocked attempt may
still be written back. The model follows the code.

## Model

| member | source | states |
|---|---|---|
| `UsuarioEntity.AddYears` | PulseManager/Domain/Entities/Usuario.cs:34 | same month and day in the target year, except that Feb 29 becomes Feb 28 in a common year |
| `UsuarioEntity.Idade` | PulseManager/Domain/Entities/Usuario.cs:31-35 | the age as the source computes it (year difference, then `AddYears` back and compare) is the year difference minus 1 exactly when (month, day) of the birth comes after today's; the clamp never changes it |
| `UsuarioEntity.IdadeCountsWholeYears` | PulseManager/Domain/Entities/Usuario.cs:31-35 | the n-th birthday has been reached exactly when n is at most the computed age, so the age is the number of whole years lived |
| `UsuarioEntity.ValidarMaioridade` | PulseManager/Domain/Entities/Usuario.cs:29-39 | rejects (`InvalidUserAgeException`) exactly when the age is below 18, and accepts exactly when the 18th birthday has come; it changes nothing |
| `UsuarioEntity.PreviousDay` | PulseManager/Domain/Entities/Usuario.cs:34-38 | the calendar day before a date: earlier than it, with no valid date in between |
| `UsuarioEntity.EighteenthBirthdayBoundary` | PulseManager/Domain/Entities/Usuario.cs:34-38 | on the 18th birthday the check passes; on the day before it fails |
| `UsuarioEntity.LeapDayBirthday` | PulseManager/Domain/Entities/Usuario.cs:31-35 | a person born on Feb 29 is a year older on Mar 1 of a common year, and not yet on Feb 28 |
| `UsuarioEntity.IdadeNonNegative` | PulseManager/Domain/Entities/Usuario.cs:31-35 | on or after the birth date the age is at least 0 |
| `UsuarioEntity.IdadeMonotone` | PulseManager/Domain/Entities/Usuario.cs:31-35 | the age never decreases as today advances |
| `LoginEntity.Incrementado` | PulseManager/Domain/Entities/Login.cs:50-53 | `TentativasLogin++` adds one, and wraps from the largest `int` to the smallest |
| `LoginEntity.Desbloqueado` | PulseManager/Domain/Entities/Login.cs:55-63 | a reset login has counter 0, is unblocked and in range, and differs from the old one only in the counter |
| `LoginEntity.Attempt` | PulseManager/Domain/Entities/Login.cs:35-48 | success if and only if the login is unblocked and the password verifies; only the counter changes; a blocked login is left as it was; success resets the counter to 0; failure adds exactly 1; the range 0..5 is kept |
| `LoginEntity.Login.constructor` | PulseManager/Domain/Entities/Login.cs:15-23 | a new login has the given id, the request's CPF, the user's id, counter 0 and a hash that verifies the request password |
| `LoginEntity.Login.FromRecord` | PulseManager/Domain/Entities/Login.cs:13 | the entity materialised from a stored row holds exactly that row |
| `LoginEntity.Login.EstaBloqueado` | PulseManager/Domain/Entities/Login.cs:25-28 | blocked exactly when the counter is at least 5 |
| `LoginEntity.Login.DefinirSenha` | PulseManager/Domain/Entities/Login.cs:30-33 | only the hash changes; the new hash verifies the new password; the blocked status stays |
| `LoginEntity.Login.VerificarSenha` | PulseManager/Domain/Entities/Login.cs:35-48 | the new state and the answer are those of `Attempt` on the old state |
| `LoginEntity.Login.IncrementarTentativas` | PulseManager/Domain/Entities/Login.cs:50-53 | only the counter changes, by the wrapping increment |
| `LoginEntity.Login.ResetarTentativas` | PulseManager/Domain/Entities/Login.cs:55-58 | only the counter changes, to 0 |
| `LoginEntity.Login.Desbloquear` | PulseManager/Domain/Entities/Login.cs:60-63 | only the counter changes, to 0, from any state |
| `LoginEntity.IncrementCanLeaveRange` | PulseManager/Domain/Entities/Login.cs:50-53 | the unguarded increment takes a blocked login (counter 5) out of the range 0..5 |
| `LoginEntity.Replay` | PulseManager/Domain/Entities/Login.cs:35-48 | a run of `VerificarSenha` calls gives one answer per guess, changes only the counter and keeps the range 0..5 |
| `LoginEntity.WrongGuessesLockOut` | PulseManager/Domain/Entities/Login.cs:25-48 | from counter c in range, k wrong guesses all fail, leave the counter at min(c + k, 5) and reach the hash check min(k, 5 - c) times |
| `LoginEntity.BlockedIsAbsorbing` | PulseManager/Domain/Entities/Login.cs:35-38 | on a blocked login any run of guesses, right or wrong, fails every time, checks no hash and leaves the login unchanged |
| `LoginEntity.UnlockThenCorrectPassword` | PulseManager/Domain/Entities/Login.cs:35-63 | unlocking is idempotent, and after it the right password succeeds |
| `LoginEntity.LockoutScenario` | PulseManager/Domain/Entities/Login.cs:25-63 | four wrong passwords leave a fresh login active at 4; the fifth blocks it at 5; the right password is then refused with the counter left at 5; after an unlock it succeeds |
| `LoginServices.Authenticate` | PulseManager/Application/Service/Implementation/LoginService.cs:64-74 | for a found row: blocked gives `Blocked` with the store unchanged; otherwise the post-verification row is stored; a wrong password gives the unknown-CPF error with the counter one higher; a right one gives `Ok` with the stored row at counter 0; other rows are unchanged |
| `LoginServices.LoginService.constructor` | PulseManager/Application/Service/Implementation/LoginService.cs:14-18 | the service starts over the given table |
| `LoginServices.LoginService.GetByCpf` | PulseManager/Infraestruture/Repositories/Implementation/LoginRepository.cs:18-23 | none exactly when no row has the CPF; otherwise some stored row with that CPF |
| `LoginServices.LoginService.Update` | PulseManager/Infraestruture/Repositories/Implementation/LoginRepository.cs:41-46 | the entity's state is stored under its id and nothing else changes |
| `LoginServices.LoginService.BuscarPorCpf` | PulseManager/Application/Service/Implementation/LoginService.cs:20-27 | `NotFound` exactly when no row has the CPF; otherwise a stored row with that CPF |
| `LoginServices.LoginService.BuscarPorId` | PulseManager/Application/Service/Implementation/LoginService.cs:29-36 | `NotFound` exactly when the id is absent; otherwise the stored row |
| `LoginServices.LoginService.Autenticar` | PulseManager/Application/Service/Implementation/LoginService.cs:57-75 | an unknown CPF gives `Unauthorized` with the same message as a wrong password and changes nothing; otherwise the result and new table are those of `Authenticate` on the row found; counters stay in range |
| `LoginServices.LoginService.AtualizarSenha` | PulseManager/Application/Service/Implementation/LoginService.cs:38-46 | absent id gives `NotFound` and changes nothing; otherwise only that row's hash changes, to one that verifies the new password |
| `LoginServices.LoginService.Delete` | PulseManager/Application/Service/Implementation/LoginService.cs:48-55 | absent id gives `NotFound` and changes nothing; otherwise exactly that row is removed |
| `LoginServices.LoginService.DesbloquearUsuario` | PulseManager/Application/Service/Implementation/LoginService.cs:85-93 | absent id gives `NotFound` and changes nothing; otherwise only that row's counter changes, to 0 |

## Left out

- BCrypt internals: the digest algorithm and its timing-safe comparison. Only "a fresh hash verifies its password" is assumed.
- LoginEntity.Login.DefinirSenha: does not promise that the old password stops verifying, because the abstract hash admits collisions and the new password may equal the old one.
- Randomness and the clock: the salt, `Guid.NewGuid()` and `DateTime.Today` are parameters.
- Time of day: `DataNascimento` is a date only. A stored time of day on the birth date would make the comparison at `Usuario.cs:34` fail on the birthday itself, and this is not modelled.
- UsuarioEntity.AddYears: .NET's `ArgumentOutOfRangeException` for a target year outside 1..9999 is a precondition. At its one call site the target year is the birth year, so the call always meets it.
- The `Usuario` navigation property of `Login`: only `UsuarioId` is kept. The `Usuario` entity keeps only id, name, CPF, birth date and e-mail.
- AutoMapper projection to `LoginResponseDto`: operations return the stored row itself.
- `ListarTodosAsync`: a projection of the whole table with no logic.
- CPF uniqueness: the table does not enforce it, so `GetByCpf` may return any matching row; SQL's `FirstOrDefault` without an ordering fixes none.
- Concurrency: the read-modify-write of the counter racing between simultaneous requests. Each operation is one atomic step.
- Storage failures and EF Core change tracking: `UpdateAsync` followed by `Reload` is a write of the row followed by a read of the same row.
- Controllers, `CadastroService` (which calls `ValidarMaioridade` before anything is stored), `PatioService`, the Patio, Zona and Gateway CRUD, DTO validation attributes and program setup: framework glue with no logic of its own.
