/**
 The bearer token of a process: a provider's tokens applied, refreshed ahead of their expiry, dropped
 once the server refuses them, and asked for again. Every callback of the source is one step.
 */
module Token {
  import opened Common

  type Path = int

  type Waiter = int

  // ---------------------------------------------------------------------------------------------
  // What a provider hands out.
  // ---------------------------------------------------------------------------------------------

  const MIN_REFRESH_MS: real := 1000.0
  const FIRST_RETRY_MS: real := 1000.0
  const MAX_RETRY_MS: real := 30000.0
  const MAX_TIMER_MS: real := 2147483647.0
  const MIN_EPOCH_MS: real := 1000000000000.0

  /** A token as the source holds it; times in milliseconds since the epoch. */
  datatype Fresh = Fresh(token: string, handed: string, expiresAt: real, refreshAt: real)

  /** What the provider returned, as far as it is read: no string is an empty one, no finite number none. */
  datatype Answer = Answer(token: string, expiresAt: Option<real>)

  datatype Failure = HandedBack | Retryable | Permanent

  function MinReal(a: real, b: real): (r: real) {
    if a <= b then a else b
  }

  function MaxReal(a: real, b: real): (r: real) {
    if a >= b then a else b
  }

  /** The characters a JavaScript `trim` takes off. */
  predicate Space(c: char) {
    var u := c as int;
    || 0x09 <= u <= 0x0D || u == 0x20 || u == 0xA0 || u == 0x1680 || 0x2000 <= u <= 0x200A
    || u == 0x2028 || u == 0x2029 || u == 0x202F || u == 0x205F || u == 0x3000 || u == 0xFEFF
  }

  predicate Printable(c: char) {
    0x21 <= c as int <= 0x7E
  }

  function TrimLeft(s: string): (r: string) {
    if s != [] && Space(s[0]) then TrimLeft(s[1..]) else s
  }

  function TrimRight(s: string): (r: string) {
    if s != [] && Space(s[|s| - 1]) then TrimRight(s[..|s| - 1]) else s
  }

  function Trim(s: string): (r: string) {
    TrimRight(TrimLeft(s))
  }

  predicate Usable(token: string) {
    token != [] && forall i :: 0 <= i < |token| ==> Printable(token[i])
  }

  /** Random numbers are in this range. */
  predicate Jitter(j: real) {
    0.0 <= j < 1.0
  }

  function RefreshAfter(lifetime: real, jitter: real): (r: real) {
    MaxReal(MIN_REFRESH_MS, lifetime * (0.7 + 0.1 * jitter))
  }

  function Pow2(n: nat): (r: real) {
    if n == 0 then 1.0 else 2.0 * Pow2(n - 1)
  }

  /** The backoff before its jitter: doubled after each failure in a row. */
  function Backoff(failures: nat): (r: real)
    requires failures >= 1
  {
    MinReal(MAX_RETRY_MS, FIRST_RETRY_MS * Pow2(Min(failures - 1, 16)))
  }

  function RetryAfter(failures: nat, jitter: real): (r: real)
    requires failures >= 1
  {
    Backoff(failures) * (0.5 + 0.5 * jitter)
  }

  function Checked(got: Answer, now: real, jitter: real): (r: Result<Fresh, Failure>) {
    var token := Trim(got.token);
    if !Usable(token) then Err(Permanent)
    else if got.expiresAt.None? then Err(Permanent)
    else if got.expiresAt.value < MIN_EPOCH_MS then Err(Permanent)
    else
      var lifetime := got.expiresAt.value - now;
      if lifetime < MIN_REFRESH_MS then Err(Retryable)
      else Ok(Fresh(token, got.token, got.expiresAt.value, now + RefreshAfter(lifetime, jitter)))
  }

  lemma Product(a: real, b: real)
    requires a >= 0.0 && b >= 0.0
    ensures a * b >= 0.0
  {
  }

  lemma Scaled(whole: real, least: real, share: real)
    requires whole >= 0.0 && least <= share <= 1.0
    ensures whole * least <= whole * share <= whole
  {
    Product(whole, 1.0 - share);
    Product(whole, share - least);
    assert whole * (1.0 - share) == whole - whole * share;
    assert whole * (share - least) == whole * share - whole * least;
  }

  lemma RefreshWithin(lifetime: real, jitter: real)
    requires Jitter(jitter) && lifetime >= MIN_REFRESH_MS
    ensures MIN_REFRESH_MS <= RefreshAfter(lifetime, jitter) <= lifetime
  {
    var share := 0.7 + 0.1 * jitter;
    assert share <= 1.0;
    Scaled(lifetime, 0.7, share);
    assert lifetime * share <= lifetime;
  }

  /** A token taken is refreshed at least a second from now and never after it expired. */
  lemma RefreshBeforeExpiry(got: Answer, now: real, jitter: real)
    requires Jitter(jitter) && Checked(got, now, jitter).Ok?
    ensures var f := Checked(got, now, jitter).value;
            && now + MIN_REFRESH_MS <= f.refreshAt <= f.expiresAt
            && Usable(f.token) && f.token == Trim(f.handed)
  {
    RefreshWithin(got.expiresAt.value - now, jitter);
  }

  lemma {:induction false} Pow2AtLeastOne(n: nat)
    ensures Pow2(n) >= 1.0
  {
    if n > 0 {
      Pow2AtLeastOne(n - 1);
    }
  }

  lemma BackoffBounds(failures: nat)
    requires failures >= 1
    ensures FIRST_RETRY_MS <= Backoff(failures) <= MAX_RETRY_MS
  {
    Pow2AtLeastOne(Min(failures - 1, 16));
  }

  lemma HalfToWhole(whole: real, share: real)
    requires FIRST_RETRY_MS <= whole <= MAX_RETRY_MS && 0.5 <= share <= 1.0
    ensures 500.0 <= whole * share <= MAX_RETRY_MS
  {
    Scaled(whole, 0.5, share);
  }

  lemma RetryBounds(failures: nat, jitter: real)
    requires failures >= 1 && Jitter(jitter)
    ensures 500.0 <= RetryAfter(failures, jitter) <= MAX_RETRY_MS
  {
    BackoffBounds(failures);
    HalfToWhole(Backoff(failures), 0.5 + 0.5 * jitter);
  }

  lemma {:induction false} TrimmedIsWhole(s: string)
    requires s != [] ==> !Space(s[0]) && !Space(s[|s| - 1])
    ensures Trim(s) == s
  {
  }

  lemma UsableIsTrimmed(token: string)
    requires Usable(token)
    ensures Trim(token) == token
  {
    assert Printable(token[0]) && Printable(token[|token| - 1]);
    TrimmedIsWhole(token);
  }

  // ---------------------------------------------------------------------------------------------
  // The source.
  // ---------------------------------------------------------------------------------------------

  /** A call in flight; once answered, what its last callback has still to do. */
  datatype Phase = Calling | Landing(minted: Fresh) | Failing(failure: Failure)

  /** A call, and the token held as it started. */
  datatype Attempt = Attempt(previous: Option<Fresh>, phase: Phase)

  datatype Dropped = Dropped(token: string, paths: set<Path>)

  datatype Outcome = Got(token: Option<string>) | GaveUp | FailedForGood

  /** The source's fields, the outcomes of the opens that waited, and every token it applied, in order. */
  datatype State = State(
    provider: Option<int>, attempt: Option<Attempt>, current: Option<Fresh>, held: Option<Fresh>,
    dropped: Option<Dropped>, timer: Option<real>, failures: nat, forgiven: Option<nat>, handedBack: bool,
    failed: bool, waiters: set<Waiter>, outcomes: map<Waiter, Outcome>, applied: seq<string>)

  const START: State := State(None, None, None, None, None, None, 0, None, false, false, {}, map[], [])

  predicate BackingOff(s: State) {
    s.failures > 0 && s.timer.Some?
  }

  /** None of `paths` is bound and blocked, `clear` being the paths that are not. */
  predicate Cleared(paths: set<Path>, clear: set<Path>) {
    paths <= clear
  }

  predicate Restored(s: State, token: string, clear: set<Path>) {
    s.dropped.Some? && s.dropped.value.token == token && Cleared(s.dropped.value.paths, clear)
  }

  function Call(s: State): (r: State) {
    if s.provider.None? then s
    else s.(timer := None, attempt := Some(Attempt(s.held, Calling)))
  }

  function Ask(s: State): (r: State) {
    if s.attempt.None? && !BackingOff(s) then Call(s) else s
  }

  function Apply(s: State, token: string): (r: State) {
    s.(applied := s.applied + [token])
  }

  function Told(outcomes: map<Waiter, Outcome>, waiters: set<Waiter>, outcome: Outcome): (r: map<Waiter, Outcome>) {
    outcomes + map w | w in waiters :: outcome
  }

  /** Every open that waits learns `outcome`. */
  function Settle(s: State, outcome: Outcome): (r: State) {
    s.(waiters := {}, outcomes := Told(s.outcomes, s.waiters, outcome))
  }

  function DueAt(now: real, ms: real): (r: real) {
    now + MinReal(MAX_TIMER_MS, MaxReal(0.0, ms))
  }

  function Schedule(s: State, now: real, ms: real): (r: State) {
    s.(timer := Some(DueAt(now, ms)))
  }

  function Reconsidered(s: State, clear: set<Path>): (r: State) {
    if s.provider.None? || s.failed || !s.handedBack || !BackingOff(s) || s.dropped.None? then s
    else if s.held.Some? && s.held.value.token == s.dropped.value.token && Cleared(s.dropped.value.paths, clear)
    then Call(s)
    else s
  }

  /** The token held serves an open at once. */
  function Served(s: State, w: Waiter, token: string): (r: State) {
    var s1 := Apply(s.(outcomes := s.outcomes[w := Got(Some(token))]), token);
    if s1.attempt.None? && s1.timer.None? then Call(s1) else s1
  }

  /** An open waits for the provider. */
  function Waits(s: State, w: Waiter, clear: set<Path>): (r: State) {
    var s1 := s.(waiters := s.waiters + {w});
    if s1.attempt.Some? then s1
    else if !BackingOff(s1) then Call(s1)
    else Reconsidered(s1, clear)
  }

  /** An open with a provider: `use`, then `token`. */
  function Opened(s: State, provider: int, w: Waiter, now: real, clear: set<Path>, aborted: bool): (r: State) {
    var failing := s.failed || s.failures > 0;
    var s1 := s.(provider := Some(provider), failed := false);
    if s.current.Some? && (failing || s.current.value.expiresAt > now) then Served(s1, w, s.current.value.token)
    else if aborted then s1.(outcomes := s1.outcomes[w := GaveUp])
    else Waits(s1, w, clear)
  }

  function Refused(s: State, token: string): (r: State) {
    if s.provider.None? || s.failed then s
    else if s.current.Some? && s.current.value.token != token then s
    else
      Ask(s.(dropped := if s.dropped.Some? && s.dropped.value.token == token then None else s.dropped, current := None))
  }

  function Blocked(s: State, paths: set<Path>): (r: State) {
    if s.provider.None? || s.failed then s
    else
      var dropped := if s.current.Some? then Some(Dropped(s.current.value.token, paths))
                     else if s.dropped.Some? then Some(Dropped(s.dropped.value.token, s.dropped.value.paths + paths))
                     else None;
      Ask(s.(dropped := dropped, current := None))
  }

  function Stopped(s: State, replaced: bool, clear: set<Path>): (r: State) {
    var forget := replaced || s.current.Some? || (s.held.Some? && Restored(s, s.held.value.token, clear));
    Settle(s.(attempt := None, timer := None, provider := None,
              held := if forget then None else s.held, dropped := if forget then None else s.dropped,
              current := None, failures := 0, forgiven := None, handedBack := false, failed := false),
           Got(None))
  }

  function Declined(s: State, failure: Failure): (r: State)
    requires s.attempt.Some?
  {
    s.(attempt := Some(s.attempt.value.(phase := Failing(failure))))
  }

  function Taken(s: State, minted: Fresh): (r: State)
    requires s.attempt.Some?
  {
    Apply(s.(attempt := Some(s.attempt.value.(phase := Landing(minted)))), minted.token)
  }

  /** The provider answered: checked, refused when it is the token it was handed, applied. */
  function Answered(s: State, got: Answer, now: real, jitter: real, clear: set<Path>): (r: State)
    requires s.attempt.Some?
  {
    var attempt := s.attempt.value;
    match Checked(got, now, jitter)
    case Err(failure) => Declined(s, failure)
    case Ok(minted) =>
      if attempt.previous.Some? && attempt.previous.value.token == minted.token
          && !Restored(s, minted.token, clear) then
        Declined(s, HandedBack)
      else
        Taken(s, minted)
  }

  function Succeeded(s: State, minted: Fresh, now: real): (r: State) {
    Schedule(Settle(s.(attempt := None, current := Some(minted), held := Some(minted), dropped := None,
                       failures := 0, forgiven := None, handedBack := false),
                    Got(Some(minted.token))),
             now, minted.refreshAt - now)
  }

  /** The failures the backoff no longer counts, from the first one at or after `expiry` on. */
  function Forgiven(forgiven: Option<nat>, failures: nat, expiry: Option<real>, now: real): (r: Option<nat>)
    requires failures >= 1
  {
    if expiry.Some? && now >= expiry.value && forgiven.None? then Some(failures - 1) else forgiven
  }

  /** How long until the retry: the backoff, and by `expiry` at the latest. */
  function RetryIn(failures: nat, forgiven: Option<nat>, expiry: Option<real>, now: real, jitter: real): (r: real)
    requires failures >= 1 && (forgiven.Some? ==> forgiven.value < failures)
  {
    var backoff := RetryAfter(failures - (if forgiven.Some? then forgiven.value else 0), jitter);
    if expiry.Some? && now < expiry.value then MinReal(backoff, expiry.value - now) else backoff
  }

  function FailedWith(s: State, failure: Failure, expiry: Option<real>, now: real, jitter: real): (r: State)
    requires s.forgiven.Some? ==> s.forgiven.value < s.failures
  {
    var s1 := s.(attempt := None, handedBack := failure.HandedBack?);
    if failure.Permanent? then Settle(s1.(failed := true), FailedForGood)
    else
      var failures := s.failures + 1;
      var forgiven := Forgiven(s.forgiven, failures, expiry, now);
      Schedule(s1.(failures := failures, forgiven := forgiven), now, RetryIn(failures, forgiven, expiry, now, jitter))
  }

  datatype Step =
    | Open(provider: int, waiter: Waiter, now: real, clear: set<Path>, aborted: bool)
    | Abort(waiter: Waiter)
    | Refuse(token: string)
    | Block(paths: set<Path>)
    | Reconsider(clear: set<Path>)
    | Stop(replaced: bool, clear: set<Path>)
    /** The provider's promise settles: an answer, or a failure, its time running out included. */
    | ProviderAnswers(got: Answer, now: real, jitter: real, clear: set<Path>)
    | ProviderFails(permanent: bool)
    /** The callback after it. */
    | Land(now: real, jitter: real)
    /** The timer fires; `used`: a path of the thread is bound or an open with a provider is binding. */
    | Due(used: bool, clear: set<Path>)

  predicate Enabled(s: State, step: Step) {
    match step
    case Open(_, waiter, _, _, _) => waiter !in s.waiters && waiter !in s.outcomes
    case Abort(waiter) => waiter in s.waiters
    case ProviderAnswers(_, _, jitter, _) => s.attempt.Some? && s.attempt.value.phase.Calling? && Jitter(jitter)
    case ProviderFails(_) => s.attempt.Some? && s.attempt.value.phase.Calling?
    case Land(_, jitter) =>
      && s.attempt.Some? && !s.attempt.value.phase.Calling? && Jitter(jitter)
      && (s.forgiven.Some? ==> s.forgiven.value < s.failures)
    case Due(_, _) => s.timer.Some?
    case _ => true
  }

  function Next(s: State, step: Step): (r: State)
    requires Enabled(s, step)
  {
    match step
    case Open(provider, waiter, now, clear, aborted) => Opened(s, provider, waiter, now, clear, aborted)
    case Abort(waiter) => s.(waiters := s.waiters - {waiter}, outcomes := s.outcomes[waiter := GaveUp])
    case Refuse(token) => Refused(s, token)
    case Block(paths) => Blocked(s, paths)
    case Reconsider(clear) => Reconsidered(s, clear)
    case Stop(replaced, clear) => Stopped(s, replaced, clear)
    case ProviderAnswers(got, now, jitter, clear) => Answered(s, got, now, jitter, clear)
    case ProviderFails(permanent) => Declined(s, if permanent then Permanent else Retryable)
    case Land(now, jitter) =>
      var attempt := s.attempt.value;
      if attempt.phase.Landing? then Succeeded(s, attempt.phase.minted, now)
      else
        FailedWith(s, attempt.phase.failure,
                   if attempt.previous.Some? then Some(attempt.previous.value.expiresAt) else None, now, jitter)
    case Due(used, clear) =>
      var s1 := s.(timer := None);
      if s.waiters == {} && !used then Stopped(s1, false, clear) else Call(s1)
  }

  predicate Legal(s: State, run: seq<Step>)
    decreases |run|
  {
    run == [] || (Enabled(s, run[0]) && Legal(Next(s, run[0]), run[1..]))
  }

  function After(s: State, run: seq<Step>): (r: State)
    requires Legal(s, run)
    decreases |run|
  {
    if run == [] then s else After(Next(s, run[0]), run[1..])
  }

  // ---------------------------------------------------------------------------------------------
  // What every step keeps.
  // ---------------------------------------------------------------------------------------------

  /** The tokens agree: the current one is the one held, the dropped one too, and a call was handed it. */
  predicate TokensAgree(s: State) {
    && (s.current.Some? ==> s.current == s.held)
    && (s.dropped.Some? ==> s.current.None? && s.held.Some? && s.dropped.value.token == s.held.value.token)
    && (s.attempt.Some? ==> s.attempt.value.previous == s.held)
    && (s.held.Some? ==> Usable(s.held.value.token))
    && (s.attempt.Some? && s.attempt.value.phase.Landing? ==> Usable(s.attempt.value.phase.minted.token))
  }

  /** A call in flight and a timer never coexist, either has a provider, and an open that waits has one of them. */
  predicate Awake(s: State) {
    && !(s.attempt.Some? && s.timer.Some?)
    && (s.attempt.Some? || s.timer.Some? ==> s.provider.Some? && !s.failed)
    && (s.waiters != {} ==> s.attempt.Some? || s.timer.Some?)
    && (s.forgiven.Some? ==> s.forgiven.value < s.failures)
  }

  /** Each open waits or has its outcome, and a token it got was applied. */
  predicate Answers(s: State) {
    && (forall w :: w in s.waiters ==> w !in s.outcomes)
    && (forall w :: w in s.outcomes && s.outcomes[w].Got? && s.outcomes[w].token.Some? ==>
        s.outcomes[w].token.value in s.applied)
    && (s.current.Some? ==> s.current.value.token in s.applied)
    && (s.attempt.Some? && s.attempt.value.phase.Landing? ==> s.attempt.value.phase.minted.token in s.applied)
  }

  predicate Inv(s: State) {
    TokensAgree(s) && Awake(s) && Answers(s)
  }

  lemma ServedKeeps(s: State, w: Waiter, token: string)
    requires Inv(s) && s.provider.Some? && !s.failed && w !in s.waiters && w !in s.outcomes
    ensures Inv(Served(s, w, token))
  {
  }

  lemma WaitsKeeps(s: State, w: Waiter, clear: set<Path>)
    requires Inv(s) && s.provider.Some? && !s.failed && w !in s.waiters && w !in s.outcomes
    ensures Inv(Waits(s, w, clear))
  {
  }

  lemma OpenKeeps(s: State, provider: int, w: Waiter, now: real, clear: set<Path>, aborted: bool)
    requires Inv(s) && w !in s.waiters && w !in s.outcomes
    ensures Inv(Opened(s, provider, w, now, clear, aborted))
  {
    var s1 := s.(provider := Some(provider), failed := false);
    assert Inv(s1);
    if s.current.Some? {
      ServedKeeps(s1, w, s.current.value.token);
    }
    WaitsKeeps(s1, w, clear);
  }

  lemma RefusedKeeps(s: State, token: string)
    requires Inv(s)
    ensures Inv(Refused(s, token))
  {
  }

  lemma BlockedKeeps(s: State, paths: set<Path>)
    requires Inv(s)
    ensures Inv(Blocked(s, paths))
  {
  }

  lemma ReconsideredKeeps(s: State, clear: set<Path>)
    requires Inv(s)
    ensures Inv(Reconsidered(s, clear))
  {
  }

  lemma StoppedKeeps(s: State, replaced: bool, clear: set<Path>)
    requires Inv(s)
    ensures Inv(Stopped(s, replaced, clear))
  {
  }

  lemma DeclinedKeeps(s: State, failure: Failure)
    requires Inv(s) && s.attempt.Some?
    ensures Inv(Declined(s, failure))
  {
  }

  lemma TakenKeeps(s: State, minted: Fresh)
    requires Inv(s) && s.attempt.Some? && Usable(minted.token)
    ensures Inv(Taken(s, minted))
  {
  }

  lemma AnsweredKeeps(s: State, got: Answer, now: real, jitter: real, clear: set<Path>)
    requires Inv(s) && s.attempt.Some?
    ensures Inv(Answered(s, got, now, jitter, clear))
  {
    match Checked(got, now, jitter) {
      case Err(failure) => DeclinedKeeps(s, failure);
      case Ok(minted) =>
        DeclinedKeeps(s, HandedBack);
        TakenKeeps(s, minted);
    }
  }

  lemma SucceededKeeps(s: State, minted: Fresh, now: real)
    requires Inv(s) && s.attempt.Some? && s.attempt.value.phase == Landing(minted)
    ensures Inv(Succeeded(s, minted, now))
  {
  }

  lemma FailedKeeps(s: State, failure: Failure, expiry: Option<real>, now: real, jitter: real)
    requires Inv(s) && s.attempt.Some?
    ensures Inv(FailedWith(s, failure, expiry, now, jitter))
  {
  }

  lemma DueKeeps(s: State, used: bool, clear: set<Path>)
    requires Inv(s) && s.timer.Some?
    ensures Inv(Next(s, Due(used, clear)))
  {
    if s.waiters == {} && !used {
      var s1 := s.(timer := None);
      assert Inv(s1);
      StoppedKeeps(s1, false, clear);
    }
  }

  lemma AbortKeeps(s: State, w: Waiter)
    requires Inv(s) && w in s.waiters
    ensures Inv(Next(s, Abort(w)))
  {
  }

  lemma StepKeeps(s: State, step: Step)
    requires Inv(s) && Enabled(s, step)
    ensures Inv(Next(s, step))
  {
    match step {
      case Open(provider, waiter, now, clear, aborted) => OpenKeeps(s, provider, waiter, now, clear, aborted);
      case Abort(waiter) => AbortKeeps(s, waiter);
      case Refuse(token) => RefusedKeeps(s, token);
      case Block(paths) => BlockedKeeps(s, paths);
      case Reconsider(clear) => ReconsideredKeeps(s, clear);
      case Stop(replaced, clear) => StoppedKeeps(s, replaced, clear);
      case ProviderAnswers(got, now, jitter, clear) => AnsweredKeeps(s, got, now, jitter, clear);
      case ProviderFails(permanent) => DeclinedKeeps(s, if permanent then Permanent else Retryable);
      case Land(now, jitter) =>
        var attempt := s.attempt.value;
        if attempt.phase.Landing? {
          SucceededKeeps(s, attempt.phase.minted, now);
        } else {
          FailedKeeps(s, attempt.phase.failure,
                      if attempt.previous.Some? then Some(attempt.previous.value.expiresAt) else None, now, jitter);
        }
      case Due(used, clear) => DueKeeps(s, used, clear);
    }
  }

  lemma {:induction false} RunKeeps(s: State, run: seq<Step>)
    requires Inv(s) && Legal(s, run)
    ensures Inv(After(s, run))
    decreases |run|
  {
    if run != [] {
      StepKeeps(s, run[0]);
      RunKeeps(Next(s, run[0]), run[1..]);
    }
  }

  /**
   No wake-up is lost: over any run, a call in flight and a timer never coexist, either has a
   provider, an open still waits only while one of them exists, each open waits or has its outcome
   and never both, and a token an open got was applied.
   */
  lemma NoLostWakeup(run: seq<Step>)
    requires Legal(START, run)
    ensures var s := After(START, run); TokensAgree(s) && Awake(s) && Answers(s)
  {
    RunKeeps(START, run);
  }

  // ---------------------------------------------------------------------------------------------
  // A refused token.
  // ---------------------------------------------------------------------------------------------

  /** `token` is held as refused: no way is left by which the source takes it. */
  predicate Banned(s: State, token: string) {
    && s.held.Some? && s.held.value.token == token
    && s.current.None? && s.dropped.None?
    && !(s.attempt.Some? && s.attempt.value.phase.Landing? && s.attempt.value.phase.minted.token == token)
  }

  /** The steps that end a refusal: the provider's different token lands, or a string replaces it. */
  predicate Lifts(s: State, step: Step, token: string) {
    || (step.Stop? && step.replaced)
    || (step.Land? && s.attempt.Some? && s.attempt.value.phase.Landing? && s.attempt.value.phase.minted.token != token)
  }

  predicate Unlifted(s: State, run: seq<Step>, token: string)
    requires Legal(s, run)
    decreases |run|
  {
    run == [] || (!Lifts(s, run[0], token) && Unlifted(Next(s, run[0]), run[1..], token))
  }

  /** What `r` applied since `s` starts with nothing but other tokens. */
  predicate NotAppliedSince(s: State, r: State, token: string) {
    && s.applied <= r.applied
    && forall i :: |s.applied| <= i < |r.applied| ==> r.applied[i] != token
  }

  lemma AnsweredBanned(s: State, token: string, got: Answer, now: real, jitter: real, clear: set<Path>)
    requires Inv(s) && Banned(s, token) && s.attempt.Some?
    ensures var r := Answered(s, got, now, jitter, clear); Banned(r, token) && NotAppliedSince(s, r, token)
  {
    match Checked(got, now, jitter) {
      case Err(_) =>
      case Ok(minted) => assert s.attempt.value.previous == s.held;
    }
  }

  lemma LandBanned(s: State, token: string, now: real, jitter: real)
    requires Inv(s) && Banned(s, token) && Enabled(s, Land(now, jitter)) && !Lifts(s, Land(now, jitter), token)
    ensures var r := Next(s, Land(now, jitter)); Banned(r, token) && NotAppliedSince(s, r, token)
  {
  }

  lemma OpenBanned(s: State, token: string, provider: int, w: Waiter, now: real, clear: set<Path>, aborted: bool)
    requires Inv(s) && Banned(s, token)
    ensures var r := Opened(s, provider, w, now, clear, aborted); Banned(r, token) && NotAppliedSince(s, r, token)
  {
  }

  lemma StepBanned(s: State, token: string, step: Step)
    requires Inv(s) && Banned(s, token) && Enabled(s, step) && !Lifts(s, step, token)
    ensures var r := Next(s, step); Banned(r, token) && NotAppliedSince(s, r, token)
  {
    match step {
      case Open(provider, waiter, now, clear, aborted) => OpenBanned(s, token, provider, waiter, now, clear, aborted);
      case ProviderAnswers(got, now, jitter, clear) => AnsweredBanned(s, token, got, now, jitter, clear);
      case Land(now, jitter) => LandBanned(s, token, now, jitter);
      case _ =>
    }
  }

  /**
   A refused token is never applied again, by no step of any run, until the provider's different
   token lands or a string token replaces it.
   */
  lemma {:induction false} RefusedNeverApplied(s: State, token: string, run: seq<Step>)
    requires Inv(s) && Banned(s, token) && Legal(s, run) && Unlifted(s, run, token)
    ensures Banned(After(s, run), token) && NotAppliedSince(s, After(s, run), token)
    decreases |run|
  {
    if run != [] {
      StepBanned(s, token, run[0]);
      StepKeeps(s, run[0]);
      RefusedNeverApplied(Next(s, run[0]), token, run[1..]);
    }
  }

  /** What a caller can check before it reports that the token held was refused. */
  predicate RefusalTaken(s: State, token: string) {
    && s.provider.Some? && !s.failed
    && !(s.attempt.Some? && s.attempt.value.phase.Landing? && s.attempt.value.phase.minted.token == token)
  }

  /** A refusal of the token held bans it exactly when it is taken, or it was banned already. */
  lemma RefusalBans(s: State, token: string)
    requires Inv(s) && s.held.Some? && s.held.value.token == token
    ensures Banned(Refused(s, token), token) <==> RefusalTaken(s, token) || Banned(s, token)
  {
  }

  // ---------------------------------------------------------------------------------------------
  // A token that is not banned is applied again on some run.
  // ---------------------------------------------------------------------------------------------

  /** The provider's answer is already another token's: only the callback that makes it current is due. */
  predicate OtherLanding(s: State, token: string) {
    s.attempt.Some? && s.attempt.value.phase.Landing? && s.attempt.value.phase.minted.token != token
  }

  predicate AppliesNow(s: State, step: Step, token: string) {
    Enabled(s, step) && !Lifts(s, step, token) && Next(s, step).applied == s.applied + [token]
  }

  /** `run` applies `token` again with nothing lifting the refusal before. */
  predicate AppliesAgain(s: State, run: seq<Step>, token: string)
    decreases |run|
  {
    && run != [] && Enabled(s, run[0]) && !Lifts(s, run[0], token)
    && (AppliesNow(s, run[0], token) || AppliesAgain(Next(s, run[0]), run[1..], token))
  }

  lemma Later(s: State, step: Step, run: seq<Step>, token: string)
    requires Enabled(s, step) && !Lifts(s, step, token) && AppliesAgain(Next(s, step), run, token)
    ensures AppliesAgain(s, [step] + run, token)
  {
    assert ([step] + run)[1..] == run;
  }

  lemma NewWaiter(s: State) returns (w: Waiter)
    ensures w !in s.waiters && w !in s.outcomes
  {
    var seen := s.waiters + s.outcomes.Keys;
    w := if seen == {} then 0 else Greatest(seen) + 1;
    assert w !in seen;
  }

  /** The token is current: an open applies it. */
  lemma CurrentApplies(s: State, token: string) returns (run: seq<Step>)
    requires s.current.Some? && s.current.value.token == token
    ensures AppliesAgain(s, run, token)
  {
    var w := NewWaiter(s);
    var step := Open(0, w, s.current.value.expiresAt - 1.0, {}, false);
    assert AppliesNow(s, step, token);
    run := [step];
  }

  /** A call runs: it hands the dropped token back once its reporters are clear. */
  lemma CallingApplies(s: State, token: string) returns (run: seq<Step>)
    requires Inv(s) && s.attempt.Some? && s.attempt.value.phase.Calling?
    requires s.dropped.Some? && s.dropped.value.token == token
    ensures AppliesAgain(s, run, token)
  {
    UsableIsTrimmed(token);
    var step := ProviderAnswers(Answer(token, Some(MIN_EPOCH_MS)), 0.0, 0.0, s.dropped.value.paths);
    assert Restored(s, token, s.dropped.value.paths);
    assert AppliesNow(s, step, token);
    run := [step];
  }

  /** None runs: an open starts one, at once or once its retry is due. */
  lemma IdleApplies(s: State, token: string) returns (run: seq<Step>)
    requires Inv(s) && s.attempt.None? && s.dropped.Some? && s.dropped.value.token == token
    ensures AppliesAgain(s, run, token)
  {
    var w := NewWaiter(s);
    var step := Open(0, w, 0.0, {}, false);
    var s1 := Next(s, step);
    StepKeeps(s, step);
    var rest: seq<Step>;
    if s1.attempt.Some? {
      rest := CallingApplies(s1, token);
    } else {
      var due := Due(true, {});
      StepKeeps(s1, due);
      var tail := CallingApplies(Next(s1, due), token);
      Later(s1, due, tail, token);
      rest := [due] + tail;
    }
    Later(s, step, rest, token);
    run := [step] + rest;
  }

  /**
   The converse: while the token held is not banned and no other is landing, some run applies it
   again. A refusal that was not taken protects nothing.
   */
  lemma UnbannedIsApplied(s: State, token: string) returns (run: seq<Step>)
    requires Inv(s) && s.held.Some? && s.held.value.token == token
    requires !Banned(s, token) && !OtherLanding(s, token)
    ensures AppliesAgain(s, run, token)
  {
    if s.current.Some? {
      run := CurrentApplies(s, token);
    } else if s.attempt.None? {
      run := IdleApplies(s, token);
    } else if s.attempt.value.phase.Calling? {
      run := CallingApplies(s, token);
    } else {
      var land := Land(0.0, 0.0);
      StepKeeps(s, land);
      var s1 := Next(s, land);
      var rest: seq<Step>;
      if s.attempt.value.phase.Landing? {
        rest := CurrentApplies(s1, token);
      } else {
        rest := IdleApplies(s1, token);
      }
      Later(s, land, rest, token);
      run := [land] + rest;
    }
  }

  /** Some run applies `token` again with nothing lifting the refusal before. */
  ghost predicate MayApplyAgain(s: State, token: string) {
    exists run :: AppliesAgain(s, run, token)
  }

  lemma NotAppliedNow(s: State, r: State, token: string)
    requires NotAppliedSince(s, r, token)
    ensures r.applied != s.applied + [token]
  {
    assert (s.applied + [token])[|s.applied|] == token;
  }

  lemma {:induction false} BannedStays(s: State, token: string, run: seq<Step>)
    requires Inv(s) && Banned(s, token)
    ensures !AppliesAgain(s, run, token)
    decreases |run|
  {
    if run != [] && Enabled(s, run[0]) && !Lifts(s, run[0], token) {
      StepBanned(s, token, run[0]);
      NotAppliedNow(s, Next(s, run[0]), token);
      StepKeeps(s, run[0]);
      BannedStays(Next(s, run[0]), token, run[1..]);
    }
  }

  /** A token held is never applied again after its refusal exactly when that is taken, or it was banned already. */
  lemma RefusalProtectsExactly(s: State, token: string)
    requires Inv(s) && s.held.Some? && s.held.value.token == token
    ensures !MayApplyAgain(Refused(s, token), token) <==> RefusalTaken(s, token) || Banned(s, token)
  {
    var r := Refused(s, token);
    RefusalBans(s, token);
    RefusedKeeps(s, token);
    if Banned(r, token) {
      forall run ensures !AppliesAgain(r, run, token) {
        BannedStays(r, token, run);
      }
    } else {
      var run := UnbannedIsApplied(r, token);
    }
  }

  /** The backoff never outlasts the token the failed call was handed. */
  lemma RetryByExpiry(s: State, failure: Failure, expiry: real, now: real, jitter: real)
    requires Inv(s) && !failure.Permanent? && now < expiry && Jitter(jitter)
    ensures var r := FailedWith(s, failure, Some(expiry), now, jitter);
            r.timer.Some? && now <= r.timer.value <= expiry && r.timer.value <= now + MAX_RETRY_MS
  {
    RetryBounds(s.failures + 1 - (if s.forgiven.Some? then s.forgiven.value else 0), jitter);
  }

  // ---------------------------------------------------------------------------------------------
  // The window in which a refusal is not taken is reachable.
  // ---------------------------------------------------------------------------------------------

  lemma {:induction false} RunThen(s: State, run: seq<Step>, step: Step)
    requires Legal(s, run) && Enabled(After(s, run), step)
    ensures Legal(s, run + [step]) && After(s, run + [step]) == Next(After(s, run), step)
    decreases |run|
  {
    var all := run + [step];
    if run == [] {
      assert all == [step] && all[1..] == [];
    } else {
      RunThen(Next(s, run[0]), run[1..], step);
      assert all[1..] == run[1..] + [step];
    }
  }

  /** A first token arrives and becomes current. */
  lemma FirstToken(token: string) returns (run: seq<Step>)
    requires Usable(token)
    ensures Legal(START, run)
    ensures var s := After(START, run);
            && s.held.Some? && s.held.value.token == token && s.current == s.held
            && s.attempt.None? && s.provider.Some? && !s.failed && s.failures == 0
  {
    UsableIsTrimmed(token);
    var open := Open(0, 0, 0.0, {}, false);
    RunThen(START, [], open);
    var got := ProviderAnswers(Answer(token, Some(MIN_EPOCH_MS)), 0.0, 0.0, {});
    RunThen(START, [] + [open], got);
    RunThen(START, [] + [open] + [got], Land(0.0, 0.0));
    run := [] + [open] + [got] + [Land(0.0, 0.0)];
  }

  /**
   A condition of a path that has cleared since drops the token, the provider hands it back, and it
   is taken. A refusal of it that arrives before the call's last callback is undone by it.
   */
  lemma RefusalUndone(token: string) returns (run: seq<Step>, again: seq<Step>)
    requires Usable(token)
    ensures Legal(START, run)
    ensures var s := After(START, run);
            && s.held.Some? && s.held.value.token == token && s.provider.Some? && !s.failed
            && !RefusalTaken(s, token) && AppliesAgain(Refused(s, token), again, token)
  {
    UsableIsTrimmed(token);
    var first := FirstToken(token);
    RunKeeps(START, first);
    RunThen(START, first, Block({0}));
    var got := ProviderAnswers(Answer(token, Some(MIN_EPOCH_MS)), 0.0, 0.0, {0});
    RunThen(START, first + [Block({0})], got);
    run := first + [Block({0})] + [got];
    var s := After(START, run);
    RunKeeps(START, run);
    RefusalBans(s, token);
    RefusedKeeps(s, token);
    again := UnbannedIsApplied(Refused(s, token), token);
  }

  // ---------------------------------------------------------------------------------------------
  // The source as an object.
  // ---------------------------------------------------------------------------------------------

  class Source {
    var provider: Option<int>
    var attempt: Option<Attempt>
    var current: Option<Fresh>
    var held: Option<Fresh>
    var dropped: Option<Dropped>
    var timer: Option<real>
    var failures: nat
    var forgiven: Option<nat>
    var handedBack: bool
    var failed: bool
    var waiters: set<Waiter>
    var outcomes: map<Waiter, Outcome>
    var applied: seq<string>

    ghost function View(): (r: State)
      reads this
    {
      State(provider, attempt, current, held, dropped, timer, failures, forgiven, handedBack, failed, waiters,
        outcomes, applied)
    }

    constructor ()
      ensures View() == START && Inv(View())
    {
      provider, attempt, current, held, dropped, timer := None, None, None, None, None, None;
      failures, forgiven, handedBack, failed := 0, None, false, false;
      waiters, outcomes, applied := {}, map[], [];
    }

    method StartCall()
      modifies this
      ensures View() == Call(old(View()))
    {
      if provider.None? {
        return;
      }
      timer := None;
      attempt := Some(Attempt(held, Calling));
    }

    method AskForToken()
      modifies this
      ensures View() == Ask(old(View()))
    {
      if attempt.None? && !(failures > 0 && timer.Some?) {
        StartCall();
      }
    }

    /** `use`, then `token`. */
    method TokenFor(p: int, w: Waiter, now: real, clear: set<Path>, aborted: bool)
      modifies this
      ensures View() == Opened(old(View()), p, w, now, clear, aborted)
    {
      provider := Some(p);
      var failing := failed || failures > 0;
      failed := false;
      if current.Some? && (failing || current.value.expiresAt > now) {
        applied := applied + [current.value.token];
        outcomes := outcomes[w := Got(Some(current.value.token))];
        if attempt.None? && timer.None? {
          StartCall();
        }
        return;
      }
      if aborted {
        outcomes := outcomes[w := GaveUp];
        return;
      }
      waiters := waiters + {w};
      if attempt.Some? {
        return;
      }
      if !(failures > 0 && timer.Some?) {
        StartCall();
      } else {
        TakeBack(clear);
      }
    }

    method BindRefused(token: string)
      modifies this
      ensures View() == Refused(old(View()), token)
    {
      if provider.None? || failed {
        return;
      }
      if current.Some? && current.value.token != token {
        return;
      }
      if dropped.Some? && dropped.value.token == token {
        dropped := None;
      }
      current := None;
      AskForToken();
    }

    method PathsBlocked(paths: set<Path>)
      modifies this
      ensures View() == Blocked(old(View()), paths)
    {
      if provider.None? || failed {
        return;
      }
      if current.Some? {
        dropped := Some(Dropped(current.value.token, paths));
      } else if dropped.Some? {
        dropped := Some(Dropped(dropped.value.token, dropped.value.paths + paths));
      }
      current := None;
      AskForToken();
    }

    /** `reconsider`. */
    method TakeBack(clear: set<Path>)
      modifies this
      ensures View() == Reconsidered(old(View()), clear)
    {
      if provider.None? || failed || !handedBack || !(failures > 0 && timer.Some?) || dropped.None? {
        return;
      }
      if held.Some? && held.value.token == dropped.value.token && dropped.value.paths <= clear {
        StartCall();
      }
    }

    method WakeAll(outcome: Outcome)
      modifies `waiters, `outcomes
      ensures waiters == {} && outcomes == Told(old(outcomes), old(waiters), outcome)
    {
      outcomes := Told(outcomes, waiters, outcome);
      waiters := {};
    }

    /** No failure counts any more. */
    method ClearFailures()
      modifies `failures, `forgiven, `handedBack
      ensures failures == 0 && forgiven == None && !handedBack
    {
      failures := 0;
      forgiven := None;
      handedBack := false;
    }

    /** No call, no timer, no provider. */
    method Halt()
      modifies `attempt, `timer, `provider, `failed
      ensures attempt == None && timer == None && provider == None && !failed
    {
      attempt := None;
      timer := None;
      provider := None;
      failed := false;
    }

    /** A stop keeps the token held only when the server refused it. */
    method ForgetToken(replaced: bool, clear: set<Path>)
      modifies `held, `dropped, `current
      ensures current == None
      ensures var forget := replaced || old(current).Some?
          || (old(held).Some? && Restored(old(View()), old(held).value.token, clear));
              held == (if forget then None else old(held)) && dropped == if forget then None else old(dropped)
    {
      if replaced || current.Some?
         || (held.Some? && dropped.Some? && dropped.value.token == held.value.token && dropped.value.paths <= clear) {
        held := None;
        dropped := None;
      }
      current := None;
    }

    method StopProvider(replaced: bool, clear: set<Path>)
      modifies this
      ensures View() == Stopped(old(View()), replaced, clear)
    {
      Halt();
      ForgetToken(replaced, clear);
      ClearFailures();
      WakeAll(Got(None));
    }

    /** The provider's answer, as the call's first callback takes it. */
    method OnAnswer(got: Answer, now: real, jitter: real, clear: set<Path>)
      requires attempt.Some? && attempt.value.phase.Calling?
      modifies this
      ensures View() == Answered(old(View()), got, now, jitter, clear)
    {
      var call := attempt.value;
      match Checked(got, now, jitter) {
        case Err(failure) =>
          attempt := Some(call.(phase := Failing(failure)));
        case Ok(minted) =>
          if call.previous.Some? && call.previous.value.token == minted.token
             && !(dropped.Some? && dropped.value.token == minted.token && dropped.value.paths <= clear) {
            attempt := Some(call.(phase := Failing(HandedBack)));
          } else {
            applied := applied + [minted.token];
            attempt := Some(call.(phase := Landing(minted)));
          }
      }
    }

    method Hold(minted: Fresh)
      modifies `attempt, `current, `held, `dropped
      ensures attempt == None && current == Some(minted) && held == Some(minted) && dropped == None
    {
      attempt := None;
      current := Some(minted);
      held := Some(minted);
      dropped := None;
    }

    method OnSuccess(minted: Fresh, now: real)
      modifies this
      ensures View() == Succeeded(old(View()), minted, now)
    {
      Hold(minted);
      ClearFailures();
      WakeAll(Got(Some(minted.token)));
      timer := Some(DueAt(now, minted.refreshAt - now));
    }

    method CountFailure(expiry: Option<real>, now: real)
      requires forgiven.Some? ==> forgiven.value < failures
      modifies `failures, `forgiven
      ensures failures == old(failures) + 1 && forgiven == Forgiven(old(forgiven), failures, expiry, now)
      ensures forgiven.Some? ==> forgiven.value < failures
    {
      failures := failures + 1;
      if expiry.Some? && now >= expiry.value && forgiven.None? {
        forgiven := Some(failures - 1);
      }
    }

    method OnFailure(failure: Failure, expiry: Option<real>, now: real, jitter: real)
      requires forgiven.Some? ==> forgiven.value < failures
      modifies this
      ensures View() == FailedWith(old(View()), failure, expiry, now, jitter)
    {
      attempt := None;
      handedBack := failure.HandedBack?;
      if failure.Permanent? {
        failed := true;
        WakeAll(FailedForGood);
        return;
      }
      CountFailure(expiry, now);
      timer := Some(DueAt(now, RetryIn(failures, forgiven, expiry, now, jitter)));
    }

    method OnTimer(used: bool, clear: set<Path>)
      requires timer.Some?
      modifies this
      ensures View() == Next(old(View()), Due(used, clear))
    {
      timer := None;
      if waiters == {} && !used {
        StopProvider(false, clear);
        return;
      }
      StartCall();
    }
  }
}
