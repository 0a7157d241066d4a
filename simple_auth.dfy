/** The shared-password access gate: choosing the secret, the throttle after a
    wrong password, the CSV audit log and the per-session sign-in state. */
module SimpleAuth {
  import opened Wrappers
  import opened Text

  // ---------------------------------------------------------------------------
  // The shared secret
  // ---------------------------------------------------------------------------

  /** What the secret store holds under `auth.SHARED_PASSWORD`. A store that
      cannot be read at all behaves like `Absent`. */
  datatype StoreValue = Absent | Str(text: string) | NotAString

  /** The secret-store value, if it is a string that is not blank. */
  function FromStore(store: StoreValue): Option<string>
  {
    if store.Str? && !IsBlank(store.text) then Some(store.text) else None
  }

  /** The environment variable `TOOLBOX_SHARED_PASSWORD`, if set and not blank. */
  function FromEnv(env: Option<string>): Option<string>
  {
    if env.Some? && !IsBlank(env.value) then env else None
  }

  /** The configured secret: the store first, the environment second. The
      value is returned exactly as configured, never trimmed, and never blank. */
  function SharedPassword(store: StoreValue, env: Option<string>): (r: Option<string>)
    ensures r.Some? ==> !IsBlank(r.value) && r.value != ""
    ensures r.Some? ==> store == Str(r.value) || env == Some(r.value)
    ensures store.Str? && !IsBlank(store.text) ==> r == Some(store.text)
    ensures r.None? <==> FromStore(store).None? && FromEnv(env).None?
  {
    if FromStore(store).Some? then FromStore(store) else FromEnv(env)
  }

  /** Python's truth test `not shared_pw`: no secret or the empty string. */
  predicate Unconfigured(secret: Option<string>)
  {
    secret.None? || secret.value == ""
  }

  // ---------------------------------------------------------------------------
  // The throttle
  // ---------------------------------------------------------------------------

  /** `min(2.0, 0.5 + 0.25 * failures)` seconds, in milliseconds: every value
      is a multiple of a quarter second, the first failure waits 750 ms, each
      further one a quarter second more, and from the sixth on the wait stays
      at the two-second cap. */
  function ThrottleDelayMs(failures: nat): (ms: nat)
    ensures 500 <= ms <= 2000
    ensures ms % 250 == 0
    ensures failures < 6 ==> ms == 500 + 250 * failures
    ensures failures >= 6 ==> ms == 2000
  {
    var linear := 500 + 250 * failures;
    if linear < 2000 then linear else 2000
  }

  /** More failures never mean a shorter delay. */
  lemma ThrottleMonotone(m: nat, n: nat)
    requires m <= n
    ensures ThrottleDelayMs(m) <= ThrottleDelayMs(n)
  {
  }

  // ---------------------------------------------------------------------------
  // The audit log
  // ---------------------------------------------------------------------------

  /** The column order of the CSV file. */
  const Fieldnames: seq<string> := ["ts_utc", "username", "ok", "client_ip", "user_agent"]

  /** Facts about the request that the gate only passes through to the log:
      the UTC time to the second, the client address and the browser's
      User-Agent (each the empty string when the host does not provide it). */
  datatype RequestContext = RequestContext(tsUtc: string, clientIp: string, userAgent: string)

  /** Python's `str(bool(ok))`. */
  function OkText(ok: bool): string
  {
    if ok then "True" else "False"
  }

  /** The row dictionary of one attempt: the value stored under each column
      name (no other key is ever looked up). */
  function FieldValue(name: string, ctx: RequestContext, username: string, ok: bool): string
  {
    if name == "ts_utc" then ctx.tsUtc
    else if name == "username" then username
    else if name == "ok" then OkText(ok)
    else if name == "client_ip" then ctx.clientIp
    else if name == "user_agent" then ctx.userAgent
    else ""
  }

  /** The CSV line written for one attempt: the row dictionary's values, in
      the order its keys were inserted, which is the order of `Fieldnames`. */
  function AttemptRow(ctx: RequestContext, username: string, ok: bool): (row: seq<string>)
    ensures |row| == |Fieldnames|
    ensures row[1] == username && row[2] == (if ok then "True" else "False")
  {
    [ctx.tsUtc, username, OkText(ok), ctx.clientIp, ctx.userAgent]
  }

  /** Every cell of an attempt row is the row dictionary's value for the
      column of that position. */
  lemma AttemptRowFollowsFieldnames(ctx: RequestContext, username: string, ok: bool)
    ensures forall i :: 0 <= i < |Fieldnames| ==>
      AttemptRow(ctx, username, ok)[i] == FieldValue(Fieldnames[i], ctx, username, ok)
  {
  }

  /** The log file: whether it exists, and its rows in file order. */
  datatype LogFile = LogFile(fileExists: bool, rows: seq<seq<string>>)

  /** One append: the file is created if need be, the header is written only
      when the file did not exist, and then exactly one attempt row follows;
      the rows already in the file are left as they were. */
  function AppendAttempt(f: LogFile, ctx: RequestContext, username: string, ok: bool): (g: LogFile)
    ensures g.fileExists
    ensures |g.rows| == |f.rows| + (if f.fileExists then 1 else 2)
    ensures g.rows[..|f.rows|] == f.rows
    ensures !f.fileExists ==> g.rows[|f.rows|] == Fieldnames
    ensures g.rows[|g.rows| - 1] == AttemptRow(ctx, username, ok)
  {
    var header := if f.fileExists then [] else [Fieldnames];
    LogFile(true, f.rows + header + [AttemptRow(ctx, username, ok)])
  }

  /** A log this module wrote: it exists exactly when it has rows, the first
      row is the header and every row has one cell per column. */
  predicate WellFormedLog(f: LogFile)
  {
    && (f.fileExists <==> f.rows != [])
    && (f.rows != [] ==> f.rows[0] == Fieldnames)
    && forall i :: 0 <= i < |f.rows| ==> |f.rows[i]| == |Fieldnames|
  }

  lemma AppendKeepsLogWellFormed(f: LogFile, ctx: RequestContext, username: string, ok: bool)
    requires WellFormedLog(f)
    ensures WellFormedLog(AppendAttempt(f, ctx, username, ok))
  {
  }

  /** The `.auth/auth_log.csv` file, appended to in place. */
  class AuthLog {
    var fileExists: bool
    var rows: seq<seq<string>>

    function File(): LogFile
      reads this
    {
      LogFile(fileExists, rows)
    }

    /** A deployment where the log file has not been created yet. */
    constructor ()
      ensures File() == LogFile(false, [])
    {
      fileExists, rows := false, [];
    }

    /** `_log_attempt`: opening for append creates the file, the header is
        written when the file was not there before, then the one row. */
    method LogAttempt(ctx: RequestContext, username: string, ok: bool)
      modifies this
      ensures File() == AppendAttempt(old(File()), ctx, username, ok)
    {
      var row := AttemptRow(ctx, username, ok);
      var writeHeader := !fileExists;
      fileExists := true;
      if writeHeader {
        rows := rows + [Fieldnames];
      }
      rows := rows + [row];
    }
  }

  // ---------------------------------------------------------------------------
  // The gate
  // ---------------------------------------------------------------------------

  /** The three session keys `authenticated`, `auth_username`, `auth_failures`:
      absent until the gate first runs with a secret configured. */
  datatype SessionState =
    | Uninitialized
    | Fields(authenticated: bool, authUsername: string, authFailures: nat)

  const InitialFields: SessionState := Fields(false, "", 0)

  /** The three keys are created, as false, "" and 0, only where missing. */
  function Initialize(s: SessionState): (t: SessionState)
    ensures t.Fields?
    ensures s.Uninitialized? ==> !t.authenticated && t.authUsername == "" && t.authFailures == 0
    ensures s.Fields? ==> t == s
  {
    if s.Uninitialized? then InitialFields else s
  }

  predicate IsAuthenticated(s: SessionState)
  {
    s.Fields? && s.authenticated
  }

  /** Why a page render stops at the gate. */
  datatype HaltReason =
    | NotConfigured
    | SignInForm
    | UsernameRequired
    | IncorrectPassword(delayMs: nat)

  /** `Proceed`: the gate returns and the page renders. `Rerun`: the page is
      rendered again from the top. `Halt`: nothing below the gate renders. */
  datatype Outcome = Proceed | Rerun | Halt(reason: HaltReason)

  /** What the sign-in form holds on this render. */
  datatype Form = Form(submitted: bool, username: string, password: string)

  datatype GateResult = GateResult(outcome: Outcome, session: SessionState, log: LogFile)

  /** One call of `require_shared_password`, on the session and log it finds. */
  function Gate(s: SessionState, f: LogFile, secret: Option<string>, form: Form, ctx: RequestContext): (r: GateResult)
    ensures r.outcome == Proceed <==> !Unconfigured(secret) && IsAuthenticated(s)
    ensures r.outcome == Proceed ==> r.session == s && r.log == f
    ensures !Unconfigured(secret) ==> r.session.Fields?
  {
    if Unconfigured(secret) then GateResult(Halt(NotConfigured), s, f)
    else
      var s1 := Initialize(s);
      if s1.authenticated then GateResult(Proceed, s1, f)
      else if !form.submitted then GateResult(Halt(SignInForm), s1, f)
      else
        var name := Strip(form.username);
        if name == "" then GateResult(Halt(UsernameRequired), s1, f)
        else if form.password == secret.value then
          GateResult(Rerun, Fields(true, name, 0), AppendAttempt(f, ctx, name, true))
        else
          var n := s1.authFailures + 1;
          GateResult(Halt(IncorrectPassword(ThrottleDelayMs(n))), s1.(authFailures := n),
                     AppendAttempt(f, ctx, name, false))
  }

  /** With no secret configured the gate halts and touches neither the
      session (not even to create its keys) nor the log. */
  lemma GateUnconfigured(s: SessionState, f: LogFile, secret: Option<string>, form: Form, ctx: RequestContext)
    requires Unconfigured(secret)
    ensures Gate(s, f, secret, form, ctx) == GateResult(Halt(NotConfigured), s, f)
  {
  }

  /** An authenticated session passes straight through, changing nothing. */
  lemma GateAuthenticatedIsNoOp(s: SessionState, f: LogFile, secret: Option<string>, form: Form, ctx: RequestContext)
    requires !Unconfigured(secret) && IsAuthenticated(s)
    ensures Gate(s, f, secret, form, ctx) == GateResult(Proceed, s, f)
  {
  }

  /** Nothing the gate does signs a session out. */
  lemma GateNeverSignsOut(s: SessionState, f: LogFile, secret: Option<string>, form: Form, ctx: RequestContext)
    requires IsAuthenticated(s)
    ensures Gate(s, f, secret, form, ctx).session == s
  {
  }

  /** A session becomes authenticated only by submitting a non-blank username
      with a password exactly equal to the configured secret. */
  lemma GateSignsInOnlyOnMatch(s: SessionState, f: LogFile, secret: Option<string>, form: Form, ctx: RequestContext)
    requires !IsAuthenticated(s)
    requires IsAuthenticated(Gate(s, f, secret, form, ctx).session)
    ensures form.submitted && !IsBlank(form.username) && secret == Some(form.password)
    ensures Gate(s, f, secret, form, ctx).outcome == Rerun
  {
  }

  /** Before a submission, and on a submission whose username is blank, the
      gate halts; the failure count, the signed-in flag, the stored username
      and the log all stay as they were. */
  lemma GateHaltsWithoutAttempt(s: SessionState, f: LogFile, secret: Option<string>, form: Form, ctx: RequestContext)
    requires !Unconfigured(secret) && !IsAuthenticated(s)
    requires !form.submitted || IsBlank(form.username)
    ensures var g := Gate(s, f, secret, form, ctx);
      && g.outcome == Halt(if form.submitted then UsernameRequired else SignInForm)
      && g.session == Initialize(s) && g.log == f
  {
  }

  /** The right password signs the session in under the trimmed username,
      clears the failure count, logs one "True" row and reruns the page. */
  lemma GateCorrectPassword(s: SessionState, f: LogFile, secret: Option<string>, form: Form, ctx: RequestContext)
    requires !Unconfigured(secret) && !IsAuthenticated(s)
    requires form.submitted && !IsBlank(form.username) && form.password == secret.value
    ensures var g := Gate(s, f, secret, form, ctx);
      && g.outcome == Rerun
      && g.session == Fields(true, Strip(form.username), 0)
      && g.log == AppendAttempt(f, ctx, Strip(form.username), true)
  {
  }

  /** A wrong password adds exactly one failure, keeps the session signed
      out, logs one "False" row and halts after the throttle delay for the
      new failure count. */
  lemma GateWrongPassword(s: SessionState, f: LogFile, secret: Option<string>, form: Form, ctx: RequestContext)
    requires !Unconfigured(secret) && !IsAuthenticated(s)
    requires form.submitted && !IsBlank(form.username) && form.password != secret.value
    ensures var g := Gate(s, f, secret, form, ctx);
      var n := Initialize(s).authFailures + 1;
      && g.outcome == Halt(IncorrectPassword(ThrottleDelayMs(n)))
      && g.session == Fields(false, Initialize(s).authUsername, n)
      && g.log == AppendAttempt(f, ctx, Strip(form.username), false)
  {
  }

  /** `st.session_state` for one browser session. `initialized` records whether
      the three keys exist; the gate creates all three together. */
  class Session {
    var initialized: bool
    var authenticated: bool
    var authUsername: string
    var authFailures: nat

    function State(): SessionState
      reads this
    {
      if initialized then Fields(authenticated, authUsername, authFailures) else Uninitialized
    }

    /** A new browser session, before any page has run. */
    constructor ()
      ensures State() == Uninitialized
    {
      initialized, authenticated, authUsername, authFailures := false, false, "", 0;
    }
  }

  /** `require_shared_password`: the gate on the live session and log file.
      `secret` is what `SharedPassword` gave for this deployment. */
  method RequireSharedPassword(session: Session, log: AuthLog, secret: Option<string>, form: Form, ctx: RequestContext)
    returns (outcome: Outcome)
    modifies session, log
    ensures var g := Gate(old(session.State()), old(log.File()), secret, form, ctx);
      outcome == g.outcome && session.State() == g.session && log.File() == g.log
  {
    ghost var s0, f0 := session.State(), log.File();
    if secret.None? || secret.value == "" {
      return Halt(NotConfigured);
    }
    if !session.initialized {
      session.authenticated := false;
      session.authUsername := "";
      session.authFailures := 0;
      session.initialized := true;
    }
    assert session.State() == Initialize(s0);
    if session.authenticated {
      return Proceed;
    }
    if !form.submitted {
      return Halt(SignInForm);
    }
    var usernameClean := Strip(form.username);
    if usernameClean == "" {
      return Halt(UsernameRequired);
    }
    if form.password == secret.value {
      session.authenticated := true;
      session.authUsername := usernameClean;
      session.authFailures := 0;
      log.LogAttempt(ctx, usernameClean, true);
      return Rerun;
    }
    var failures := session.authFailures + 1;
    session.authFailures := failures;
    log.LogAttempt(ctx, usernameClean, false);
    assert session.State() == Initialize(s0).(authFailures := failures);
    var delay := ThrottleDelayMs(failures);
    return Halt(IncorrectPassword(delay));
  }

  // ---------------------------------------------------------------------------
  // Successive renders of one session
  // ---------------------------------------------------------------------------

  /** One page render: the form as the user left it and the request facts. */
  datatype Render = Render(form: Form, ctx: RequestContext)

  datatype RunResult = RunResult(outcomes: seq<Outcome>, session: SessionState, log: LogFile)

  /** The gate applied to each render in turn. */
  function Run(s: SessionState, f: LogFile, secret: Option<string>, renders: seq<Render>): (r: RunResult)
    ensures |r.outcomes| == |renders|
    decreases |renders|
  {
    if renders == [] then RunResult([], s, f)
    else
      var g := Gate(s, f, secret, renders[0].form, renders[0].ctx);
      var rest := Run(g.session, g.log, secret, renders[1..]);
      RunResult([g.outcome] + rest.outcomes, rest.session, rest.log)
  }

  /** A run is its first gate call followed by the run of the rest. */
  lemma RunUnfold(s: SessionState, f: LogFile, secret: Option<string>, renders: seq<Render>)
    requires renders != []
    ensures var g := Gate(s, f, secret, renders[0].form, renders[0].ctx);
      var rest := Run(g.session, g.log, secret, renders[1..]);
      Run(s, f, secret, renders) == RunResult([g.outcome] + rest.outcomes, rest.session, rest.log)
  {
  }

  /** Did this render submit the right password under a non-blank username? */
  predicate SubmitsSecret(r: Render, secret: Option<string>)
  {
    r.form.submitted && !IsBlank(r.form.username) && secret == Some(r.form.password)
  }

  /** A session that ends signed in, having started signed out, submitted the
      exact secret with a non-blank username on some render. */
  lemma {:induction false} RunSignsInOnlyAfterMatch(s: SessionState, f: LogFile, secret: Option<string>, renders: seq<Render>)
    requires !IsAuthenticated(s)
    requires IsAuthenticated(Run(s, f, secret, renders).session)
    ensures exists i :: 0 <= i < |renders| && SubmitsSecret(renders[i], secret)
    decreases |renders|
  {
    var g := Gate(s, f, secret, renders[0].form, renders[0].ctx);
    if IsAuthenticated(g.session) {
      GateSignsInOnlyOnMatch(s, f, secret, renders[0].form, renders[0].ctx);
      assert SubmitsSecret(renders[0], secret);
    } else {
      RunSignsInOnlyAfterMatch(g.session, g.log, secret, renders[1..]);
      var i :| 0 <= i < |renders[1..]| && SubmitsSecret(renders[1..][i], secret);
      assert SubmitsSecret(renders[i + 1], secret);
    }
  }

  /** Once signed in, every later render proceeds and changes nothing. */
  lemma {:induction false} RunStaysSignedIn(s: SessionState, f: LogFile, secret: Option<string>, renders: seq<Render>)
    requires IsAuthenticated(s) && !Unconfigured(secret)
    ensures var r := Run(s, f, secret, renders);
      r.session == s && r.log == f && forall i :: 0 <= i < |renders| ==> r.outcomes[i] == Proceed
    decreases |renders|
  {
    if renders != [] {
      GateAuthenticatedIsNoOp(s, f, secret, renders[0].form, renders[0].ctx);
      RunStaysSignedIn(s, f, secret, renders[1..]);
    }
  }

  /** Did this render submit a wrong password under a non-blank username? */
  predicate SubmitsWrongPassword(r: Render, secret: Option<string>)
  {
    r.form.submitted && !IsBlank(r.form.username) && secret != Some(r.form.password)
  }

  /** The failure count on record, 0 before the keys exist. */
  function Failures(s: SessionState): nat
  {
    if s.Fields? then s.authFailures else 0
  }

  /** Every render after the first of a run of wrong passwords submits a
      wrong password too. */
  lemma WrongPasswordsTail(renders: seq<Render>, secret: Option<string>)
    requires renders != []
    requires forall i :: 0 <= i < |renders| ==> SubmitsWrongPassword(renders[i], secret)
    ensures forall i :: 0 <= i < |renders[1..]| ==> SubmitsWrongPassword(renders[1..][i], secret)
  {
    forall i | 0 <= i < |renders[1..]| ensures SubmitsWrongPassword(renders[1..][i], secret) {
      assert renders[1..][i] == renders[i + 1];
    }
  }

  /** The first render of a run that submits a wrong password: it halts with
      the delay for one more failure, and the rest of the run starts from a
      signed-out session with that many failures; the run's k-th outcome is
      the rest's (k-1)-th. */
  lemma WrongPasswordFirst(s: SessionState, f: LogFile, secret: Option<string>, renders: seq<Render>, k: nat)
    returns (s': SessionState, f': LogFile)
    requires !Unconfigured(secret) && !IsAuthenticated(s)
    requires renders != [] && SubmitsWrongPassword(renders[0], secret)
    ensures !IsAuthenticated(s') && Failures(s') == Failures(s) + 1
    ensures Run(s, f, secret, renders).outcomes[0] == Halt(IncorrectPassword(ThrottleDelayMs(Failures(s'))))
    ensures 0 < k < |renders| ==>
      Run(s, f, secret, renders).outcomes[k] == Run(s', f', secret, renders[1..]).outcomes[k - 1]
    ensures Run(s, f, secret, renders).session == Run(s', f', secret, renders[1..]).session
  {
    var g := Gate(s, f, secret, renders[0].form, renders[0].ctx);
    GateWrongPassword(s, f, secret, renders[0].form, renders[0].ctx);
    RunUnfold(s, f, secret, renders);
    s', f' := g.session, g.log;
  }

  /** A run of wrong passwords leaves the session signed out, with the
      failure count raised by the run's length. */
  lemma {:induction false} RunOfWrongPasswordsCounts(s: SessionState, f: LogFile, secret: Option<string>, renders: seq<Render>)
    requires !Unconfigured(secret) && !IsAuthenticated(s)
    requires forall i :: 0 <= i < |renders| ==> SubmitsWrongPassword(renders[i], secret)
    ensures var r := Run(s, f, secret, renders);
      !IsAuthenticated(r.session) && Failures(r.session) == Failures(s) + |renders|
    decreases |renders|
  {
    if renders != [] {
      var s', f' := WrongPasswordFirst(s, f, secret, renders, 0);
      WrongPasswordsTail(renders, secret);
      RunOfWrongPasswordsCounts(s', f', secret, renders[1..]);
    }
  }

  /** In a run of wrong passwords the k-th of them (counting from 1 after the
      `n - k - 1` failures already on record) halts with the throttle delay
      for failure count `n`. */
  lemma {:induction false} RunOfWrongPasswordsDelay(s: SessionState, f: LogFile, secret: Option<string>, renders: seq<Render>, k: nat, n: nat)
    requires !Unconfigured(secret) && !IsAuthenticated(s)
    requires forall i :: 0 <= i < |renders| ==> SubmitsWrongPassword(renders[i], secret)
    requires k < |renders| && n == Failures(s) + k + 1
    ensures Run(s, f, secret, renders).outcomes[k] == Halt(IncorrectPassword(ThrottleDelayMs(n)))
    decreases k
  {
    var s', f' := WrongPasswordFirst(s, f, secret, renders, k);
    if k == 0 {
      assert n == Failures(s');
    } else {
      WrongPasswordsTail(renders, secret);
      RunOfWrongPasswordsDelay(s', f', secret, renders[1..], k - 1, n);
    }
  }

  /** A run of wrong passwords: each halts with the delay for its failure
      count, and the session ends signed out with the count raised by the
      run's length. */
  lemma RunOfWrongPasswords(s: SessionState, f: LogFile, secret: Option<string>, renders: seq<Render>)
    requires !Unconfigured(secret) && !IsAuthenticated(s)
    requires forall i :: 0 <= i < |renders| ==> SubmitsWrongPassword(renders[i], secret)
    ensures var r := Run(s, f, secret, renders);
      && !IsAuthenticated(r.session)
      && Failures(r.session) == Failures(s) + |renders|
      && forall i :: 0 <= i < |renders| ==>
           r.outcomes[i] == Halt(IncorrectPassword(ThrottleDelayMs(Failures(s) + i + 1)))
  {
    RunOfWrongPasswordsCounts(s, f, secret, renders);
    forall k | 0 <= k < |renders|
      ensures Run(s, f, secret, renders).outcomes[k] == Halt(IncorrectPassword(ThrottleDelayMs(Failures(s) + k + 1)))
    {
      RunOfWrongPasswordsDelay(s, f, secret, renders, k, Failures(s) + k + 1);
    }
  }

  /** Does this outcome mean an attempt was written to the log? */
  predicate Logged(o: Outcome)
  {
    o.Rerun? || (o.Halt? && o.reason.IncorrectPassword?)
  }

  function CountLogged(outcomes: seq<Outcome>): (n: nat)
    ensures n <= |outcomes|
  {
    if outcomes == [] then 0 else (if Logged(outcomes[0]) then 1 else 0) + CountLogged(outcomes[1..])
  }

  /** One gate call writes to the log only when it reports a signed-in or a
      wrong-password attempt, and then appends exactly one attempt row (after
      the header if the file was new); otherwise the log is untouched. This
      holds for any file, including one that exists but is empty. */
  lemma GateLogStep(s: SessionState, f: LogFile, secret: Option<string>, form: Form, ctx: RequestContext)
    ensures var g := Gate(s, f, secret, form, ctx);
      && (Logged(g.outcome) ==> g.log == AppendAttempt(f, ctx, Strip(form.username), g.outcome.Rerun?))
      && (!Logged(g.outcome) ==> g.log == f)
  {
  }

  /** A gate call keeps a well-formed log well formed. */
  lemma GateKeepsLogWellFormed(s: SessionState, f: LogFile, secret: Option<string>, form: Form, ctx: RequestContext)
    requires WellFormedLog(f)
    ensures WellFormedLog(Gate(s, f, secret, form, ctx).log)
  {
    var g := Gate(s, f, secret, form, ctx);
    GateLogStep(s, f, secret, form, ctx);
    if Logged(g.outcome) {
      AppendKeepsLogWellFormed(f, ctx, Strip(form.username), g.outcome.Rerun?);
    }
  }

  /** Over any run the log keeps every row it had, stays well formed, and
      grows by exactly one row per logged attempt, plus the header when the
      run created the file. */
  lemma {:induction false} RunLogIsAppendOnly(s: SessionState, f: LogFile, secret: Option<string>, renders: seq<Render>)
    requires WellFormedLog(f)
    ensures var r := Run(s, f, secret, renders);
      var header := if !f.fileExists && CountLogged(r.outcomes) > 0 then 1 else 0;
      && WellFormedLog(r.log)
      && |f.rows| <= |r.log.rows| && r.log.rows[..|f.rows|] == f.rows
      && |r.log.rows| == |f.rows| + header + CountLogged(r.outcomes)
    decreases |renders|
  {
    if renders != [] {
      var g := Gate(s, f, secret, renders[0].form, renders[0].ctx);
      GateLogStep(s, f, secret, renders[0].form, renders[0].ctx);
      GateKeepsLogWellFormed(s, f, secret, renders[0].form, renders[0].ctx);
      var rest := Run(g.session, g.log, secret, renders[1..]);
      RunLogIsAppendOnly(g.session, g.log, secret, renders[1..]);
      var r := Run(s, f, secret, renders);
      assert r.outcomes[1..] == rest.outcomes by {
        assert r.outcomes == [g.outcome] + rest.outcomes;
      }
      assert r.log == rest.log;
      assert |f.rows| <= |g.log.rows| && g.log.rows[..|f.rows|] == f.rows;
      assert r.log.rows[..|f.rows|] == r.log.rows[..|g.log.rows|][..|f.rows|];
    }
  }

  /** Without a configured secret no render ever gets past the gate, and
      neither the session nor the log is ever touched. */
  lemma {:induction false} RunUnconfigured(s: SessionState, f: LogFile, secret: Option<string>, renders: seq<Render>)
    requires Unconfigured(secret)
    ensures var r := Run(s, f, secret, renders);
      r.session == s && r.log == f && forall i :: 0 <= i < |renders| ==> r.outcomes[i] == Halt(NotConfigured)
    decreases |renders|
  {
    if renders != [] {
      GateUnconfigured(s, f, secret, renders[0].form, renders[0].ctx);
      RunUnconfigured(s, f, secret, renders[1..]);
    }
  }

  /** With the secret "hunter2", a new session and no log file yet: "alice"
      submits "wrong" (750 ms), then "wrong2" (1000 ms, two failures on
      record), then "hunter2", which signs her in and clears the count; the
      new log holds the header and three rows, "False", "False", "True". */
  lemma HunterScenario(c1: RequestContext, c2: RequestContext, c3: RequestContext)
    ensures var renders := [Render(Form(true, "alice", "wrong"), c1),
                            Render(Form(true, "alice", "wrong2"), c2),
                            Render(Form(true, "alice", "hunter2"), c3)];
      var r := Run(Uninitialized, LogFile(false, []), Some("hunter2"), renders);
      && r.outcomes == [Halt(IncorrectPassword(750)), Halt(IncorrectPassword(1000)), Rerun]
      && r.session == Fields(true, "alice", 0)
      && r.log.rows == [Fieldnames, AttemptRow(c1, "alice", false),
                        AttemptRow(c2, "alice", false), AttemptRow(c3, "alice", true)]
  {
    var secret := Some("hunter2");
    var alice := "alice";
    assert Strip(alice) == alice by {
      assert SkipSpaceForward(alice, 0) == 0;
      assert SkipSpaceBackward(alice, 0, |alice|) == |alice|;
      assert alice[0..|alice|] == alice;
    }
    var r1, r2, r3 := Render(Form(true, alice, "wrong"), c1), Render(Form(true, alice, "wrong2"), c2),
                      Render(Form(true, alice, "hunter2"), c3);
    var f0 := LogFile(false, []);
    var s1, f1 := Fields(false, "", 1), AppendAttempt(f0, c1, alice, false);
    assert Gate(Uninitialized, f0, secret, r1.form, c1) == GateResult(Halt(IncorrectPassword(750)), s1, f1) by {
      GateWrongPassword(Uninitialized, f0, secret, r1.form, c1);
    }
    var s2, f2 := Fields(false, "", 2), AppendAttempt(f1, c2, alice, false);
    assert Gate(s1, f1, secret, r2.form, c2) == GateResult(Halt(IncorrectPassword(1000)), s2, f2) by {
      GateWrongPassword(s1, f1, secret, r2.form, c2);
    }
    var s3, f3 := Fields(true, alice, 0), AppendAttempt(f2, c3, alice, true);
    assert Gate(s2, f2, secret, r3.form, c3) == GateResult(Rerun, s3, f3) by {
      GateCorrectPassword(s2, f2, secret, r3.form, c3);
    }
    assert Run(s3, f3, secret, []) == RunResult([], s3, f3);
    assert Run(s2, f2, secret, [r3]) == RunResult([Rerun], s3, f3) by {
      RunUnfold(s2, f2, secret, [r3]);
      assert [r3][1..] == [];
    }
    assert Run(s1, f1, secret, [r2, r3]) == RunResult([Halt(IncorrectPassword(1000)), Rerun], s3, f3) by {
      RunUnfold(s1, f1, secret, [r2, r3]);
      assert [r2, r3][1..] == [r3];
    }
    assert Run(Uninitialized, f0, secret, [r1, r2, r3]) ==
      RunResult([Halt(IncorrectPassword(750)), Halt(IncorrectPassword(1000)), Rerun], s3, f3) by {
      RunUnfold(Uninitialized, f0, secret, [r1, r2, r3]);
      assert [r1, r2, r3][1..] == [r2, r3];
    }
    assert f3.rows == [Fieldnames, AttemptRow(c1, alice, false),
                       AttemptRow(c2, alice, false), AttemptRow(c3, alice, true)];
  }
}
