/** `login` against one credential: the failure counter, the lock, and how many guesses they allow. */
module Login {
  import opened Tables

  const MAX_FAILED_LOGINS := 8
  const LOCK_MS := 900_000  // fifteen minutes

  function LockTime(locks: int): int { locks * 900_000 }

  function FullLocks(span: int): int { span / 900_000 }

  datatype AccountStatus = Enabled | Barred | Deleted

  /** The row of `user_credentials` that login reads and writes. */
  datatype Credential = Credential(failed: nat, lockedUntil: Option<int>)

  const UNTOUCHED := Credential(0, None)

  /** One call: the account's status at that moment, whether the password is the right one, the clock. */
  datatype Attempt = Attempt(status: AccountStatus, right: bool, now: int)

  /** A caller sees the first and the last of these refusals as one and the same error. */
  datatype Answer = NoAccount | AccountSuspended | AccountLocked | WrongPassword | PasswordAccepted

  function Locked(c: Credential, now: int): bool {
    c.lockedUntil.Some? && c.lockedUntil.value > now
  }

  function Try(c: Credential, a: Attempt): (Credential, Answer) {
    if a.status == Deleted then (c, NoAccount)
    else if a.status == Barred then (c, AccountSuspended)
    else if Locked(c, a.now) then (c, AccountLocked)
    else if !a.right then
      (Credential(c.failed + 1, if c.failed + 1 >= MAX_FAILED_LOGINS then Some(a.now + LOCK_MS) else None), WrongPassword)
    else (UNTOUCHED, PasswordAccepted)
  }

  class CredentialRow {
    var failedLoginCount: nat
    var lockedUntil: Option<int>

    function Contents(): Credential
      reads this
    {
      Credential(failedLoginCount, lockedUntil)
    }

    constructor ()
      ensures Contents() == UNTOUCHED
    {
      failedLoginCount, lockedUntil := 0, None;
    }

    method Login(a: Attempt) returns (answer: Answer)
      modifies this
      ensures (Contents(), answer) == Try(old(Contents()), a)
    {
      if a.status == Deleted {
        return NoAccount;
      }
      if a.status == Barred {
        return AccountSuspended;
      }
      if lockedUntil.Some? && lockedUntil.value > a.now {
        return AccountLocked;
      }
      if !a.right {
        var failed := failedLoginCount + 1;
        failedLoginCount := failed;
        lockedUntil := if failed >= MAX_FAILED_LOGINS then Some(a.now + LOCK_MS) else None;
        return WrongPassword;
      }
      failedLoginCount, lockedUntil := 0, None;
      answer := PasswordAccepted;
    }
  }

  // ---- Runs ------------------------------------------------------------------------------

  function After(c: Credential, run: seq<Attempt>): Credential {
    if run == [] then c else Try(After(c, run[..|run| - 1]), run[|run| - 1]).0
  }

  function Answers(c: Credential, run: seq<Attempt>): (answers: seq<Answer>)
    ensures |answers| == |run|
  {
    if run == [] then []
    else Answers(c, run[..|run| - 1]) + [Try(After(c, run[..|run| - 1]), run[|run| - 1]).1]
  }

  function Count(answers: seq<Answer>, x: Answer): nat {
    if answers == [] then 0
    else Count(answers[..|answers| - 1], x) + if answers[|answers| - 1] == x then 1 else 0
  }

  lemma {:induction false} NoCalls(c: Credential)
    ensures After(c, []) == c && Answers(c, []) == [] && forall x :: Count([], x) == 0
  {
  }

  lemma {:induction false} OneMore(c: Credential, run: seq<Attempt>, a: Attempt)
    ensures After(c, run + [a]) == Try(After(c, run), a).0
    ensures Answers(c, run + [a]) == Answers(c, run) + [Try(After(c, run), a).1]
    ensures forall x :: Count(Answers(c, run + [a]), x) == Count(Answers(c, run), x) + if Try(After(c, run), a).1 == x then 1 else 0
  {
    var answers := Answers(c, run + [a]);
    assert (run + [a])[..|run|] == run;
    assert answers[..|run|] == Answers(c, run);
  }

  ghost predicate Between(run: seq<Attempt>, first: int, last: int) {
    && (forall i | 0 <= i < |run| :: first <= run[i].now <= last)
    && (forall i, j | 0 <= i < j < |run| :: run[i].now <= run[j].now)
  }

  /** The counter, the lock that goes with it, and the time that many failures must have taken. */
  ghost predicate Paced(c: Credential, first: int, last: int) {
    && (c.failed < MAX_FAILED_LOGINS ==> c.lockedUntil.None?)
    && (c.failed >= MAX_FAILED_LOGINS ==>
          c.lockedUntil.Some? && first + LockTime(c.failed - MAX_FAILED_LOGINS + 1) <= c.lockedUntil.value <= last + LOCK_MS)
  }

  lemma PacedStep(c: Credential, a: Attempt, first: int, last: int)
    requires Paced(c, first, a.now) && first <= a.now <= last && Try(c, a).1 != PasswordAccepted
    ensures Paced(Try(c, a).0, first, last)
    ensures Try(c, a).0.failed == c.failed + if Try(c, a).1 == WrongPassword then 1 else 0
  {
  }

  lemma {:induction false} PacedRun(run: seq<Attempt>, first: int, last: int)
    requires Between(run, first, last) && first <= last && PasswordAccepted !in Answers(UNTOUCHED, run)
    ensures Paced(After(UNTOUCHED, run), first, last)
    ensures After(UNTOUCHED, run).failed == Count(Answers(UNTOUCHED, run), WrongPassword)
    decreases |run|
  {
    NoCalls(UNTOUCHED);
    if run != [] {
      hide Paced, Try, After, Answers, Count;
      var before, a := run[..|run| - 1], run[|run| - 1];
      assert run == before + [a];
      OneMore(UNTOUCHED, before, a);
      assert forall x | x in Answers(UNTOUCHED, before) :: x in Answers(UNTOUCHED, run);
      assert Try(After(UNTOUCHED, before), a).1 in Answers(UNTOUCHED, run);
      assert Between(before, first, a.now);
      PacedRun(before, first, a.now);
      PacedStep(After(UNTOUCHED, before), a, first, last);
    }
  }

  /** From a fresh counter, with no success, at most eight passwords are checked and found wrong, and
      one more for every full fifteen minutes, however many calls are made. */
  lemma {:induction false} GuessesAreBounded(run: seq<Attempt>, first: int, last: int)
    requires Between(run, first, last) && first <= last && PasswordAccepted !in Answers(UNTOUCHED, run)
    ensures Count(Answers(UNTOUCHED, run), WrongPassword) <= MAX_FAILED_LOGINS + FullLocks(last - first)
  {
    PacedRun(run, first, last);
  }

  function Volley(first: int, n: nat): (run: seq<Attempt>)
    ensures |run| == n && forall i | 0 <= i < n :: run[i] == Attempt(Enabled, false, first)
  {
    if n == 0 then [] else Volley(first, n - 1) + [Attempt(Enabled, false, first)]
  }

  /** Eight wrong passwords at once, then one at the end of every lock. */
  function Persistent(first: int, locks: nat): (run: seq<Attempt>)
    ensures |run| == MAX_FAILED_LOGINS + locks
  {
    if locks == 0 then Volley(first, MAX_FAILED_LOGINS)
    else Persistent(first, locks - 1) + [Attempt(Enabled, false, first + LockTime(locks))]
  }

  lemma {:induction false} PersistentBetween(first: int, locks: nat)
    ensures Between(Persistent(first, locks), first, first + LockTime(locks))
  {
    if locks > 0 {
      PersistentBetween(first, locks - 1);
    }
  }

  /** The bound is met: the counter is not reset when a lock lapses, so one guess locks again. */
  lemma {:induction false} BoundIsTight(first: int, locks: nat)
    ensures Between(Persistent(first, locks), first, first + LockTime(locks))
    ensures PasswordAccepted !in Answers(UNTOUCHED, Persistent(first, locks))
    ensures Count(Answers(UNTOUCHED, Persistent(first, locks)), WrongPassword) == MAX_FAILED_LOGINS + locks
    ensures After(UNTOUCHED, Persistent(first, locks))
         == Credential(MAX_FAILED_LOGINS + locks, Some(first + LockTime(locks + 1)))
  {
    hide After, Answers, Count, Between;
    PersistentBetween(first, locks);
    if locks == 0 {
      AtOnce(first, MAX_FAILED_LOGINS);
    } else {
      BoundIsTight(first, locks - 1);
      OneMore(UNTOUCHED, Persistent(first, locks - 1), Attempt(Enabled, false, first + LockTime(locks)));
    }
  }

  lemma {:induction false} AtOnce(first: int, n: nat)
    requires n <= MAX_FAILED_LOGINS
    ensures var run := Volley(first, n);
            && PasswordAccepted !in Answers(UNTOUCHED, run) && Count(Answers(UNTOUCHED, run), WrongPassword) == n
            && After(UNTOUCHED, run) == Credential(n, if n == MAX_FAILED_LOGINS then Some(first + LOCK_MS) else None)
  {
    hide After, Answers, Count;
    if n == 0 {
      NoCalls(UNTOUCHED);
    } else {
      AtOnce(first, n - 1);
      OneMore(UNTOUCHED, Volley(first, n - 1), Attempt(Enabled, false, first));
    }
  }

  lemma {:induction false} Resumed(c: Credential, s: seq<Attempt>, t: seq<Attempt>)
    ensures After(c, s + t) == After(After(c, s), t)
    ensures Answers(c, s + t) == Answers(c, s) + Answers(After(c, s), t)
    decreases |t|
  {
    hide After, Answers, Count, Try;
    if t == [] {
      assert s + t == s;
      NoCalls(After(c, s));
    } else {
      var before, a := t[..|t| - 1], t[|t| - 1];
      Resumed(c, s, before);
      assert s + t == (s + before) + [a] && t == before + [a];
      OneMore(c, s + before, a);
      OneMore(After(c, s), before, a);
    }
  }

  lemma {:induction false} SuccessResets(c: Credential, before: seq<Attempt>, a: Attempt)
    requires Try(After(c, before), a).1 == PasswordAccepted
    ensures After(c, before + [a]) == UNTOUCHED
  {
    OneMore(c, before, a);
    hide After, Answers, Count;
  }

  /** Between two successes of any run, however the credential stood before, the same bound holds: eight
      wrong passwords, and one more for every full fifteen minutes between the calls. */
  lemma {:induction false} GuessesBetweenSuccesses(c: Credential, run: seq<Attempt>, i: nat, j: nat, first: int, last: int)
    requires i < j < |run| && Answers(c, run)[i] == PasswordAccepted && Answers(c, run)[j] == PasswordAccepted
    requires forall n | i < n < j :: Answers(c, run)[n] != PasswordAccepted
    requires first <= last && Between(run[i + 1..j], first, last)
    ensures Count(Answers(c, run)[i + 1..j], WrongPassword) <= MAX_FAILED_LOGINS + FullLocks(last - first)
  {
    hide Answers, After, Count, Between, Try;
    AnswersBetween(c, run, i, j);
    var inside := Answers(UNTOUCHED, run[i + 1..j]);
    assert forall n | 0 <= n < |inside| :: inside[n] == Answers(c, run)[i + 1 + n];
    GuessesAreBounded(run[i + 1..j], first, last);
  }

  lemma {:induction false} AnswersBetween(c: Credential, run: seq<Attempt>, i: nat, j: nat)
    requires i < j < |run| && Answers(c, run)[i] == PasswordAccepted
    ensures Answers(c, run)[i + 1..j] == Answers(UNTOUCHED, run[i + 1..j])
  {
    hide After, Answers, Count, Try;
    var head, a, inside, tail := run[..i], run[i], run[i + 1..j], run[j..];
    assert run == (head + [a]) + (inside + tail);
    Resumed(c, head + [a], inside + tail);
    OneMore(c, head, a);
    SuccessResets(c, head, a);
    Resumed(UNTOUCHED, inside, tail);
  }

  // ---- What every call is answered, from the history alone ---------------------------------------------

  /** The wrong passwords counted since the last success. */
  ghost function WrongSince(run: seq<Attempt>): nat {
    if run == [] then 0
    else
      var answer := Answers(UNTOUCHED, run)[|run| - 1];
      if answer == PasswordAccepted then 0 else WrongSince(run[..|run| - 1]) + if answer == WrongPassword then 1 else 0
  }

  /** When the last wrong password was given. */
  ghost function LastWrongAt(run: seq<Attempt>): int {
    if run == [] then 0
    else if Answers(UNTOUCHED, run)[|run| - 1] == WrongPassword then run[|run| - 1].now
    else LastWrongAt(run[..|run| - 1])
  }

  /** Eight wrong passwords or more since the last success lock the account for fifteen minutes from the last. */
  ghost predicate LockedOut(run: seq<Attempt>, now: int) {
    WrongSince(run) >= 8 && now < LastWrongAt(run) + 15 * 60_000
  }

  ghost predicate Remembers(c: Credential, wrong: nat, lastWrong: int) {
    c == Credential(wrong, if wrong >= 8 then Some(lastWrong + 15 * 60_000) else None)
  }

  lemma RemembersStep(c: Credential, a: Attempt, wrong: nat, lastWrong: int)
    requires Remembers(c, wrong, lastWrong)
    ensures var (c', answer) := Try(c, a);
            Remembers(c', if answer == PasswordAccepted then 0 else wrong + if answer == WrongPassword then 1 else 0,
                      if answer == WrongPassword then a.now else lastWrong)
  {
  }

  lemma {:induction false} RunRemembers(run: seq<Attempt>)
    ensures Remembers(After(UNTOUCHED, run), WrongSince(run), LastWrongAt(run))
    decreases |run|
  {
    NoCalls(UNTOUCHED);
    if run != [] {
      hide After, Answers, Count, Try, Remembers;
      var before, a := run[..|run| - 1], run[|run| - 1];
      assert run == before + [a];
      RunRemembers(before);
      OneMore(UNTOUCHED, before, a);
      RemembersStep(After(UNTOUCHED, before), a, WrongSince(before), LastWrongAt(before));
    }
  }

  /** After any run, what a call is answered: the account must exist, not be suspended and not be locked
      out; then the password alone decides. */
  lemma {:induction false} AnswerTable(run: seq<Attempt>, a: Attempt)
    ensures var answer := Try(After(UNTOUCHED, run), a).1;
            && (answer == NoAccount <==> a.status == Deleted)
            && (answer == AccountSuspended <==> a.status == Barred)
            && (answer == AccountLocked <==> a.status == Enabled && LockedOut(run, a.now))
            && (answer == PasswordAccepted <==> a.status == Enabled && !LockedOut(run, a.now) && a.right)
            && (answer == WrongPassword <==> a.status == Enabled && !LockedOut(run, a.now) && !a.right)
  {
    RunRemembers(run);
    hide After;
  }
}
