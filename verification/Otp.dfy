/** Signup by one-time code for one address: start, resend, verify, and what the limits allow. */
module Otp {
  import opened Tables

  const OTP_TTL_MS := 600_000        // ten minutes
  const RESEND_COOLDOWN_MS := 30_000 // half a minute
  const MAX_OTP_ATTEMPTS := 5
  const MAX_RESENDS := 5

  /** The pending row; `code` stands for the hash of the code that was mailed. */
  datatype PendingSignup = PendingSignup(code: string, attempts: nat, resends: nat, expiresAt: int, lastSentAt: int)

  /** The pending row of the address, and whether a user with the address exists. */
  datatype Desk = Desk(pending: Option<PendingSignup>, registered: bool)

  /** `Register` is a user row that appears by another road: the acceptance of an invitation. */
  datatype Call =
    | Start(code: string, now: int)
    | Resend(code: string, now: int)
    | Verify(code: string, now: int)
    | Register(now: int)

  datatype Reply =
    | Sent | Created | WrongCode | Noted
    | AddressTaken | NoPendingSignup | ResendLimit | ResendCooldown | OtpExpired | OtpAttempts

  function Answer(d: Desk, call: Call): (Desk, Reply) {
    match call
    case Start(code, now) =>
      if d.registered then (d, AddressTaken)
      else (d.(pending := Some(PendingSignup(code, 0, 0, now + OTP_TTL_MS, now))), Sent)
    case Resend(code, now) =>
      if d.pending.None? then (d, NoPendingSignup)
      else
        var p := d.pending.value;
        if p.resends >= MAX_RESENDS then (d, ResendLimit)
        else if now - p.lastSentAt < RESEND_COOLDOWN_MS then (d, ResendCooldown)
        else (d.(pending := Some(PendingSignup(code, 0, p.resends + 1, now + OTP_TTL_MS, now))), Sent)
    case Verify(code, now) =>
      if d.pending.None? then (d, NoPendingSignup)
      else
        var p := d.pending.value;
        if p.expiresAt < now then (d.(pending := None), OtpExpired)
        else if p.attempts >= MAX_OTP_ATTEMPTS then (d.(pending := None), OtpAttempts)
        else if code != p.code then (d.(pending := Some(p.(attempts := p.attempts + 1))), WrongCode)
        else if d.registered then (d.(pending := None), AddressTaken)
        else (Desk(None, true), Created)
    case Register(_) => (d.(registered := true), Noted)
  }

  /** The same, updating the row in place. */
  class SignupDesk {
    var pending: Option<PendingSignup>
    var registered: bool

    function Contents(): Desk
      reads this
    {
      Desk(pending, registered)
    }

    constructor ()
      ensures Contents() == Desk(None, false)
    {
      pending, registered := None, false;
    }

    method StartSignup(code: string, now: int) returns (r: Reply)
      modifies this
      ensures (Contents(), r) == Answer(old(Contents()), Start(code, now))
    {
      if registered {
        return AddressTaken;
      }
      if pending.Some? {
        pending := Some(pending.value.(code := code, attempts := 0, resends := 0, expiresAt := now + OTP_TTL_MS, lastSentAt := now));
      } else {
        pending := Some(PendingSignup(code, 0, 0, now + OTP_TTL_MS, now));
      }
      r := Sent;
    }

    method ResendSignupOtp(code: string, now: int) returns (r: Reply)
      modifies this
      ensures (Contents(), r) == Answer(old(Contents()), Resend(code, now))
    {
      if pending.None? {
        return NoPendingSignup;
      }
      var p := pending.value;
      if p.resends >= MAX_RESENDS {
        return ResendLimit;
      }
      if now - p.lastSentAt < RESEND_COOLDOWN_MS {
        return ResendCooldown;
      }
      pending := Some(p.(code := code, expiresAt := now + OTP_TTL_MS, attempts := 0, resends := p.resends + 1, lastSentAt := now));
      r := Sent;
    }

    method VerifySignup(code: string, now: int) returns (r: Reply)
      modifies this
      ensures (Contents(), r) == Answer(old(Contents()), Verify(code, now))
    {
      if pending.None? {
        return NoPendingSignup;
      }
      var p := pending.value;
      if p.expiresAt < now {
        pending := None;
        return OtpExpired;
      }
      if p.attempts >= MAX_OTP_ATTEMPTS {
        pending := None;
        return OtpAttempts;
      }
      if code != p.code {
        pending := Some(p.(attempts := p.attempts + 1));
        return WrongCode;
      }
      if registered {
        pending := None;
        return AddressTaken;
      }
      registered := true;
      pending := None;
      r := Created;
    }
  }

  // ---- Runs, and what was sent in them ---------------------------------------------------------

  function After(d: Desk, run: seq<Call>): Desk {
    if run == [] then d else Answer(After(d, run[..|run| - 1]), run[|run| - 1]).0
  }

  /** The reply to call `i` of the run. */
  function ReplyTo(d: Desk, run: seq<Call>, i: nat): Reply
    requires i < |run|
  {
    Answer(After(d, run[..i]), run[i]).1
  }

  datatype Mail = Mail(code: string, at: int)

  /** What one call sends. */
  function MailOf(call: Call, reply: Reply): seq<Mail> {
    if reply == Sent && (call.Start? || call.Resend?) then [Mail(call.code, call.now)] else []
  }

  /** The codes mailed in the course of the run, in order. */
  function Mails(d: Desk, run: seq<Call>): seq<Mail> {
    if run == [] then []
    else Mails(d, run[..|run| - 1]) + MailOf(run[|run| - 1], ReplyTo(d, run, |run| - 1))
  }

  /** How often the reply `x` was given. */
  function Count(d: Desk, run: seq<Call>, x: Reply): nat {
    if run == [] then 0
    else Count(d, run[..|run| - 1], x) + if ReplyTo(d, run, |run| - 1) == x then 1 else 0
  }

  lemma {:induction false} OneMore(d: Desk, run: seq<Call>, call: Call)
    ensures var reply := Answer(After(d, run), call).1;
            && After(d, run + [call]) == Answer(After(d, run), call).0
            && ReplyTo(d, run + [call], |run|) == reply
            && Mails(d, run + [call]) == Mails(d, run) + MailOf(call, reply)
            && (forall x :: Count(d, run + [call], x) == Count(d, run, x) + if reply == x then 1 else 0)
  {
    assert (run + [call])[..|run|] == run;
  }

  // ---- An account needs the latest code, in time --------------------------------------------------

  predicate Ends(call: Call, reply: Reply) {
    call.Verify? && reply in {OtpExpired, OtpAttempts, AddressTaken, Created}
  }

  /** Whether some code was mailed and no verification has ended the signup since. */
  ghost predicate StillOpen(d: Desk, run: seq<Call>) {
    run != [] &&
    var (call, reply) := (run[|run| - 1], ReplyTo(d, run, |run| - 1));
    reply == Sent || (!Ends(call, reply) && StillOpen(d, run[..|run| - 1]))
  }

  /** The wrong codes counted since the last mail. */
  ghost function WrongSince(d: Desk, run: seq<Call>): nat {
    if run == [] || ReplyTo(d, run, |run| - 1) == Sent then 0
    else WrongSince(d, run[..|run| - 1]) + if ReplyTo(d, run, |run| - 1) == WrongCode then 1 else 0
  }

  /** A pending row describes the last code mailed and what has happened since. */
  ghost predicate Matches(d: Desk, mails: seq<Mail>, open: bool, wrong: nat) {
    && (d.pending.Some? <==> open)
    && (open ==>
          && mails != []
          && d.pending.value.code == mails[|mails| - 1].code
          && d.pending.value.expiresAt == mails[|mails| - 1].at + OTP_TTL_MS
          && d.pending.value.attempts == wrong)
  }

  lemma MatchesStep(d: Desk, call: Call, mails: seq<Mail>, open: bool, wrong: nat)
    requires Matches(d, mails, open, wrong)
    ensures var (d', reply) := Answer(d, call);
            Matches(d', mails + MailOf(call, reply), reply == Sent || (!Ends(call, reply) && open),
                    if reply == Sent then 0 else wrong + if reply == WrongCode then 1 else 0)
  {
  }

  lemma {:induction false} RunMatches(d: Desk, run: seq<Call>)
    requires d.pending.None?
    ensures Matches(After(d, run), Mails(d, run), StillOpen(d, run), WrongSince(d, run))
    decreases |run|
  {
    if run != [] {
      var before, call := run[..|run| - 1], run[|run| - 1];
      RunMatches(d, before);
      assert run == before + [call];
      OneMore(d, before, call);
      MatchesStep(After(d, before), call, Mails(d, before), StillOpen(d, before), WrongSince(d, before));
      hide Answer, Matches, MailOf, After, Mails;
    }
  }

  /** On any run from an address without a pending signup, a verification creates the account if and
      only if the signup is still open, the code is the last one mailed, it comes within ten minutes of
      that mail, fewer than five wrong codes were counted since, and the address is free. */
  lemma {:induction false} CreatedIff(d: Desk, run: seq<Call>, code: string, now: int)
    requires d.pending.None?
    ensures var mails := Mails(d, run);
            Answer(After(d, run), Verify(code, now)).1 == Created <==>
              && StillOpen(d, run) && mails != [] && mails[|mails| - 1].code == code && now <= mails[|mails| - 1].at + OTP_TTL_MS
              && WrongSince(d, run) < MAX_OTP_ATTEMPTS && !After(d, run).registered
  {
    RunMatches(d, run);
  }

  // ---- The budget between two starts --------------------------------------------------------------

  /** Only the first call of the run is a start that sent a code. */
  ghost predicate OneStart(d: Desk, run: seq<Call>) {
    && run != [] && run[0].Start? && ReplyTo(d, run, 0) == Sent
    && forall i | 0 < i < |run| && run[i].Start? :: ReplyTo(d, run, i) != Sent
  }

  ghost predicate Spaced(mails: seq<Mail>) {
    forall i, j | 0 <= i < j < |mails| && j == i + 1 :: mails[i].at + RESEND_COOLDOWN_MS <= mails[j].at
  }

  /** The budget, with the share of it that a pending row still shows. */
  ghost predicate WithinBudget(d: Desk, mails: seq<Mail>, wrong: nat) {
    && 1 <= |mails| <= 1 + MAX_RESENDS
    && wrong <= 5 * |mails|
    && Spaced(mails)
    && (d.pending.Some? ==>
          && |mails| == 1 + d.pending.value.resends
          && mails[|mails| - 1].at == d.pending.value.lastSentAt
          && d.pending.value.attempts <= MAX_OTP_ATTEMPTS
          && wrong <= 5 * d.pending.value.resends + d.pending.value.attempts)
  }

  lemma BudgetStep(d: Desk, call: Call, mails: seq<Mail>, wrong: nat)
    requires WithinBudget(d, mails, wrong) && (call.Start? ==> Answer(d, call).1 != Sent)
    ensures var (d', reply) := Answer(d, call);
            WithinBudget(d', mails + MailOf(call, reply), wrong + if reply == WrongCode then 1 else 0)
  {
  }

  lemma FirstMail(d: Desk, call: Call)
    requires call.Start? && Answer(d, call).1 == Sent
    ensures WithinBudget(Answer(d, call).0, MailOf(call, Sent), 0)
  {
  }

  lemma {:induction false} BudgetRun(d: Desk, run: seq<Call>)
    requires OneStart(d, run)
    ensures WithinBudget(After(d, run), Mails(d, run), Count(d, run, WrongCode))
    decreases |run|
  {
    hide WithinBudget, Answer, MailOf, After, Mails, Count;
    var before, call := run[..|run| - 1], run[|run| - 1];
    assert run == before + [call];
    if before == [] {
      assert run == [call];
      BudgetFirst(d, call);
    } else {
      StartStays(d, before, call);
      hide OneStart;
      BudgetRun(d, before);
      BudgetNext(d, before, call);
    }
  }

  lemma {:induction false} BudgetFirst(d: Desk, call: Call)
    requires OneStart(d, [call])
    ensures WithinBudget(After(d, [call]), Mails(d, [call]), Count(d, [call], WrongCode))
  {
    assert [call][..0] == [] && [] + [call] == [call];
    OneMore(d, [], call);
    FirstMail(d, call);
    assert Mails(d, [call]) == MailOf(call, Sent);
    hide WithinBudget, Answer, MailOf;
  }

  lemma {:induction false} BudgetNext(d: Desk, before: seq<Call>, call: Call)
    requires WithinBudget(After(d, before), Mails(d, before), Count(d, before, WrongCode))
    requires call.Start? ==> Answer(After(d, before), call).1 != Sent
    ensures WithinBudget(After(d, before + [call]), Mails(d, before + [call]), Count(d, before + [call], WrongCode))
  {
    hide WithinBudget, Answer, MailOf, After, Mails, Count;
    OneMore(d, before, call);
    BudgetStep(After(d, before), call, Mails(d, before), Count(d, before, WrongCode));
  }

  lemma {:induction false} StartStays(d: Desk, before: seq<Call>, call: Call)
    requires OneStart(d, before + [call]) && before != []
    ensures OneStart(d, before) && (call.Start? ==> Answer(After(d, before), call).1 != Sent)
  {
    var run := before + [call];
    hide Answer, After;
    assert run[..|before|] == before;
    forall i | 0 <= i < |before| ensures ReplyTo(d, before, i) == ReplyTo(d, run, i) && before[i] == run[i] {
      assert before[..i] == run[..i];
    }
    assert run[|before|] == call && ReplyTo(d, run, |before|) == Answer(After(d, before), call).1;
  }

  /** From one start to the next: at most six codes, each at least half a minute after the one before,
      at most five wrong codes counted for each, so thirty in all. */
  lemma {:induction false} OtpBudget(d: Desk, run: seq<Call>)
    requires OneStart(d, run)
    ensures |Mails(d, run)| <= 6
    ensures forall i | 0 <= i < |Mails(d, run)| - 1 :: Mails(d, run)[i].at + 30_000 <= Mails(d, run)[i + 1].at
    ensures Count(d, run, WrongCode) <= 5 * |Mails(d, run)| <= 30
  {
    BudgetRun(d, run);
    forall i | 0 <= i < |Mails(d, run)| - 1 ensures Mails(d, run)[i].at + 30_000 <= Mails(d, run)[i + 1].at {
      var j := i + 1;
      assert Mails(d, run)[i].at + RESEND_COOLDOWN_MS <= Mails(d, run)[j].at;
    }
  }

  // ---- One account for an address --------------------------------------------------------------------

  lemma {:induction false} AtMostOneAccount(d: Desk, run: seq<Call>)
    ensures Count(d, run, Created) <= 1
    ensures Count(d, run, Created) == 1 ==> After(d, run).registered
    ensures d.registered ==> Count(d, run, Created) == 0 && After(d, run).registered
    decreases |run|
  {
    if run != [] {
      var before, call := run[..|run| - 1], run[|run| - 1];
      assert run == before + [call];
      OneMore(d, before, call);
      AtMostOneAccount(d, before);
      AccountStep(After(d, before), call);
      hide Answer, After, Count;
    }
  }

  /** An account is created for a free address, which is then taken for good. */
  lemma AccountStep(d: Desk, call: Call)
    ensures d.registered ==> Answer(d, call).0.registered && Answer(d, call).1 != Created
    ensures Answer(d, call).1 == Created ==> Answer(d, call).0.registered
  {
  }

  // ---- What every call is answered, from the history alone ---------------------------------------------

  /** The resends that went out since the last start that sent a code. */
  ghost function ResendsSince(d: Desk, run: seq<Call>): nat {
    if run == [] then 0
    else
      var (before, call) := (run[..|run| - 1], run[|run| - 1]);
      var sent := ReplyTo(d, run, |run| - 1) == Sent;
      if call.Start? && sent then 0 else ResendsSince(d, before) + if call.Resend? && sent then 1 else 0
  }

  /** Whether the address has an account: it had one, or one was created or appeared by another road. */
  ghost predicate HasAccount(d: Desk, run: seq<Call>) {
    d.registered || exists i :: 0 <= i < |run| && (run[i].Register? || ReplyTo(d, run, i) == Created)
  }

  lemma {:induction false} HasAccountStep(d: Desk, run: seq<Call>, call: Call)
    ensures HasAccount(d, run + [call]) <==> HasAccount(d, run) || call.Register? || Answer(After(d, run), call).1 == Created
  {
    OneMore(d, run, call);
    var longer := run + [call];
    hide Answer, After;
    assert forall i: nat | i < |run| :: longer[i] == run[i] && longer[..i] == run[..i];
    assert forall i: nat | i < |run| :: ReplyTo(d, longer, i) == ReplyTo(d, run, i);
    assert longer[|run|] == call;
  }

  ghost predicate Remembers(now: Desk, account: bool, resends: nat, mails: seq<Mail>) {
    && now.registered == account
    && (now.pending.Some? ==> now.pending.value.resends == resends && mails != [] && now.pending.value.lastSentAt == mails[|mails| - 1].at)
  }

  lemma RemembersStep(d: Desk, call: Call, account: bool, resends: nat, mails: seq<Mail>)
    requires Remembers(d, account, resends, mails)
    ensures var (d', reply) := Answer(d, call);
            Remembers(d', account || call.Register? || reply == Created,
                      if call.Start? && reply == Sent then 0 else resends + if call.Resend? && reply == Sent then 1 else 0,
                      mails + MailOf(call, reply))
  {
  }

  lemma {:induction false} RunRemembers(d: Desk, run: seq<Call>)
    requires d.pending.None?
    ensures Remembers(After(d, run), HasAccount(d, run), ResendsSince(d, run), Mails(d, run))
    decreases |run|
  {
    if run != [] {
      hide Answer, Remembers, MailOf, After, Mails, HasAccount;
      var before, call := run[..|run| - 1], run[|run| - 1];
      RunRemembers(d, before);
      assert run == before + [call];
      OneMore(d, before, call);
      HasAccountStep(d, before, call);
      RemembersStep(After(d, before), call, HasAccount(d, before), ResendsSince(d, before), Mails(d, before));
    }
  }

  /** A start sends a code exactly to a free address. */
  lemma {:induction false} StartTable(d: Desk, run: seq<Call>, code: string, now: int)
    requires d.pending.None?
    ensures var reply := Answer(After(d, run), Start(code, now)).1;
            (reply == Sent <==> !HasAccount(d, run)) && (reply == AddressTaken <==> HasAccount(d, run))
  {
    RunRemembers(d, run);
    hide After, HasAccount;
  }

  /** A resend sends a code while the signup is open, at most five times since its start, and not within
      half a minute of the mail before. */
  lemma {:induction false} ResendTable(d: Desk, run: seq<Call>, code: string, now: int)
    requires d.pending.None?
    ensures var (reply, mails) := (Answer(After(d, run), Resend(code, now)).1, Mails(d, run));
            && (StillOpen(d, run) ==> mails != [])
            && (reply == NoPendingSignup <==> !StillOpen(d, run))
            && (reply == ResendLimit <==> StillOpen(d, run) && ResendsSince(d, run) >= 5)
            && (reply == ResendCooldown <==>
                  StillOpen(d, run) && ResendsSince(d, run) < 5 && now < mails[|mails| - 1].at + 30_000)
            && (reply == Sent <==>
                  StillOpen(d, run) && ResendsSince(d, run) < 5 && mails[|mails| - 1].at + 30_000 <= now)
  {
    RunRemembers(d, run);
    RunMatches(d, run);
    hide After, HasAccount, Mails, StillOpen, WrongSince;
  }

  /** What a verification is answered: the first objection in the order of the checks, or the account. */
  lemma {:induction false} VerifyTable(d: Desk, run: seq<Call>, code: string, now: int)
    requires d.pending.None?
    ensures var (reply, mails) := (Answer(After(d, run), Verify(code, now)).1, Mails(d, run));
            && (StillOpen(d, run) ==> mails != [])
            && (reply == NoPendingSignup <==> !StillOpen(d, run))
            && (StillOpen(d, run) ==>
                  var last := mails[|mails| - 1];
                  var (late, worn, wrong) := (last.at + 10 * 60_000 < now, WrongSince(d, run) >= 5, code != last.code);
                  && (reply == OtpExpired <==> late)
                  && (reply == OtpAttempts <==> !late && worn)
                  && (reply == WrongCode <==> !late && !worn && wrong)
                  && (reply == AddressTaken <==> !late && !worn && !wrong && HasAccount(d, run))
                  && (reply == Created <==> !late && !worn && !wrong && !HasAccount(d, run)))
  {
    RunRemembers(d, run);
    RunMatches(d, run);
    hide After, HasAccount, Mails, StillOpen, WrongSince;
  }
}
