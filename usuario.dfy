/**
 * The user entity and its age-of-majority check (`Usuario.ValidarMaioridade`).
 *
 * Dates are date-only (year, month, day) triples in the range of .NET's `DateTime`;
 * the clock read `DateTime.Today` becomes the parameter `hoje`.
 */
module UsuarioEntity {
  import opened Common

  /** Age, in whole years, below which a user is rejected (`idade < 18`). */
  const MaioridadeMinima := 18

  datatype Date = Date(year: int, month: int, day: int) {
    /** A calendar date that a `DateTime` can hold (years 1 through 9999). */
    predicate IsValid() {
      1 <= year <= 9999 && 1 <= month <= 12 && 1 <= day <= DaysInMonth(year, month)
    }
  }

  /** The date part of a `DateTime`. */
  type DateTime = d: Date | d.IsValid() witness Date(1, 1, 1)

  predicate IsLeapYear(y: int) {
    y % 4 == 0 && (y % 100 != 0 || y % 400 == 0)
  }

  function DaysInMonth(y: int, m: int): (n: int)
    requires 1 <= m <= 12
    ensures 28 <= n <= 31
    ensures n == 29 <==> m == 2 && IsLeapYear(y)
  {
    if m == 2 then (if IsLeapYear(y) then 29 else 28)
    else if m == 4 || m == 6 || m == 9 || m == 11 then 30
    else 31
  }

  /** `a < b` as `DateTime` compares them: chronological, that is lexicographic on the triple. */
  predicate Before(a: Date, b: Date) {
    a.year < b.year || (a.year == b.year && (a.month < b.month || (a.month == b.month && a.day < b.day)))
  }

  /**
   * `DateTime.AddYears(n)`: the same month and day `n` years later, except that Feb 29
   * becomes Feb 28 when the target year is not a leap year. .NET throws
   * `ArgumentOutOfRangeException` when the target year leaves 1..9999; here that is the
   * precondition.
   */
  function AddYears(d: DateTime, n: int): (r: DateTime)
    requires 1 <= d.year + n <= 9999
    ensures r.year == d.year + n && r.month == d.month
    ensures r.day == d.day || (d.month == 2 && d.day == 29 && !IsLeapYear(r.year) && r.day == 28)
  {
    var y := d.year + n;
    if d.month == 2 && d.day == 29 && !IsLeapYear(y) then Date(y, 2, 28) else Date(y, d.month, d.day)
  }

  /** The birthday falls later in the year than `hoje` does: (month, day) compared lexicographically. */
  predicate BirthdayLaterInYear(nascimento: Date, hoje: Date) {
    nascimento.month > hoje.month || (nascimento.month == hoje.month && nascimento.day > hoje.day)
  }

  /**
   * The age computed by `ValidarMaioridade`: the difference of the years, minus one when
   * the birth date lies after today moved back into the birth year. The `AddYears` clamp
   * never matters: it fires only when the birth year is not a leap year, and then nobody
   * was born on Feb 29 of it.
   */
  function Idade(nascimento: DateTime, hoje: DateTime): (idade: int)
    ensures idade == hoje.year - nascimento.year - (if BirthdayLaterInYear(nascimento, hoje) then 1 else 0)
  {
    var idade := hoje.year - nascimento.year;
    if Before(AddYears(hoje, -idade), nascimento) then idade - 1 else idade
  }

  /**
   * Reference meaning of "at least n years old": the n-th birthday, the same month and day
   * in year `nascimento.year + n`, is not later than `hoje`. The triple is compared as it
   * stands, so a Feb 29 birthday in a common year falls between Feb 28 and Mar 1.
   */
  predicate BirthdayReached(nascimento: Date, hoje: Date, n: int) {
    !Before(hoje, Date(nascimento.year + n, nascimento.month, nascimento.day))
  }

  /** `Idade` counts whole years: a birthday has been reached exactly when it is at most `Idade` years out. */
  lemma IdadeCountsWholeYears(nascimento: DateTime, hoje: DateTime)
    ensures forall n :: BirthdayReached(nascimento, hoje, n) <==> n <= Idade(nascimento, hoje)
  {
  }

  /** The user entity; only the fields the age check and the login read are kept. */
  datatype Usuario = Usuario(id: Guid, name: string, cpf: string, dataNascimento: DateTime, email: string)

  /** What `ValidarMaioridade` does: return normally, or throw `InvalidUserAgeException`. */
  datatype AgeCheck = Accepted | InvalidUserAge

  /**
   * `Usuario.ValidarMaioridade`, with `DateTime.Today` as the parameter `hoje`. It reads the
   * entity and changes nothing. A user passes exactly when their 18th birthday has come.
   */
  function ValidarMaioridade(u: Usuario, hoje: DateTime): (r: AgeCheck)
    ensures r == InvalidUserAge <==> Idade(u.dataNascimento, hoje) < MaioridadeMinima
    ensures r == Accepted <==> BirthdayReached(u.dataNascimento, hoje, MaioridadeMinima)
  {
    IdadeCountsWholeYears(u.dataNascimento, hoje);
    if Idade(u.dataNascimento, hoje) < MaioridadeMinima then InvalidUserAge else Accepted
  }

  /** The calendar day before `d`. */
  function PreviousDay(d: DateTime): (r: DateTime)
    requires d != Date(1, 1, 1)
    ensures Before(r, d)
    ensures forall e: DateTime :: Before(e, d) ==> !Before(r, e)
  {
    if d.day > 1 then Date(d.year, d.month, d.day - 1)
    else if d.month > 1 then Date(d.year, d.month - 1, DaysInMonth(d.year, d.month - 1))
    else Date(d.year - 1, 12, 31)
  }

  /** On the 18th birthday itself the check passes; on the day before, it fails. */
  lemma EighteenthBirthdayBoundary(u: Usuario, hoje: DateTime)
    requires hoje.year == u.dataNascimento.year + MaioridadeMinima
    requires hoje.month == u.dataNascimento.month && hoje.day == u.dataNascimento.day
    ensures ValidarMaioridade(u, hoje) == Accepted
    ensures ValidarMaioridade(u, PreviousDay(hoje)) == InvalidUserAge
  {
  }

  /** Someone born on Feb 29 turns a year older on Mar 1 of a common year, not on Feb 28. */
  lemma LeapDayBirthday(u: Usuario, ano: int)
    requires u.dataNascimento.month == 2 && u.dataNascimento.day == 29
    requires u.dataNascimento.year < ano <= 9999 && !IsLeapYear(ano)
    ensures Idade(u.dataNascimento, Date(ano, 2, 28)) == ano - u.dataNascimento.year - 1
    ensures Idade(u.dataNascimento, Date(ano, 3, 1)) == ano - u.dataNascimento.year
  {
  }

  /** Nobody is a negative number of years old on or after their birth date. */
  lemma IdadeNonNegative(nascimento: DateTime, hoje: DateTime)
    requires !Before(hoje, nascimento)
    ensures Idade(nascimento, hoje) >= 0
  {
  }

  /** Age never decreases as today advances. */
  lemma IdadeMonotone(nascimento: DateTime, hoje: DateTime, depois: DateTime)
    requires !Before(depois, hoje)
    ensures Idade(nascimento, hoje) <= Idade(nascimento, depois)
  {
  }
}
