/** console/src/api/client.ts: the response interceptor that renews an expired session once for all the requests
    it rejects, retries each of them once, and sends the user to the login page when that fails. */
module SessionRefresh {
  import opened Wrappers
  import opened Sums

  // ---- The client --------------------------------------------------------------------------------

  /** Where a request is: not sent, on the wire, awaiting a refresh, past it, or answered for good. */
  datatype Phase = Idle | OnWire | Waiting(flight: nat) | Woken(renewed: bool) | Done

  /** `skipAuthRetry` and `retried` are the config's internal flags; `sent` counts transmissions. */
  datatype Request = Request(phase: Phase, login: bool, skipAuthRetry: bool, retried: bool, sent: nat)

  datatype Answer = Success | Unauthorized(missingProject: bool) | OtherError | Cancelled

  /** `promise` is refreshPromise, naming the refresh it stands for; `open` holds the refreshes whose POST is
      unanswered, `answered` those whose answer `finally` has yet to handle. */
  datatype World = World(
    requests: seq<Request>,
    promise: Option<nat>, next: nat, open: set<nat>, answered: map<nat, bool>,
    redirecting: bool, project: Option<string>, redirects: nat, renewals: nat)

  datatype Step =
    | Transmit(i: nat)
    | Respond(i: nat, answer: Answer)
    | Settle(flight: nat, ok: bool)  // the refresh is answered, and `then` runs
    | Finally(flight: nat)
    | Resume(i: nat)                 // the interceptor goes on after its await
    | Ask                            // a refresh is asked for outside the interceptor, on load or reconnect

  predicate Enabled(w: World, st: Step) {
    match st
    case Transmit(i) => i < |w.requests| && w.requests[i].phase == Idle
    case Respond(i, _) => i < |w.requests| && w.requests[i].phase == OnWire
    case Settle(f, _) => f in w.open
    case Finally(f) => f in w.answered
    case Resume(i) => i < |w.requests| && w.requests[i].phase.Woken?
    case Ask => true
  }

  function SetRequest(w: World, i: nat, r: Request): World
    requires i < |w.requests|
  {
    w.(requests := w.requests[i := r])
  }

  function Moved(w: World, i: nat, phase: Phase): World
    requires i < |w.requests|
  {
    SetRequest(w, i, w.requests[i].(phase := phase))
  }

  function Refresh(w: World): World {
    if w.promise.Some? then w
    else w.(promise := Some(w.next), open := w.open + {w.next}, next := w.next + 1)
  }

  function ReLogin(w: World): World {
    if w.redirecting then w else w.(redirecting := true, project := None, redirects := w.redirects + 1)
  }

  predicate Retries(r: Request, answer: Answer) {
    answer == Unauthorized(false) && !r.login && !r.skipAuthRetry && !r.retried
  }

  function Rejected(w: World, i: nat, answer: Answer): World
    requires i < |w.requests|
  {
    var r := w.requests[i];
    if Retries(r, answer) then var w' := Refresh(w); Moved(w', i, Waiting(w'.promise.value))
    else if answer == Unauthorized(false) && !r.login then Moved(ReLogin(w), i, Done)
    else Moved(w, i, Done)
  }

  function Wake(rs: seq<Request>, flight: nat, ok: bool): seq<Request> {
    seq(|rs|, i requires 0 <= i < |rs| => if rs[i].phase == Waiting(flight) then rs[i].(phase := Woken(ok)) else rs[i])
  }

  function Apply(w: World, st: Step): World
    requires Enabled(w, st)
  {
    match st
    case Transmit(i) => SetRequest(w, i, w.requests[i].(phase := OnWire, sent := w.requests[i].sent + 1))
    case Respond(i, answer) => Rejected(w, i, answer)
    case Settle(f, ok) =>
      var w' := w.(open := w.open - {f}, answered := w.answered[f := ok]);
      if ok then w'.(redirecting := false, renewals := w.renewals + 1) else w'
    case Finally(f) =>
      w.(promise := None, answered := w.answered - {f}, requests := Wake(w.requests, f, w.answered[f]))
    case Resume(i) =>
      var r := w.requests[i];
      if r.phase.renewed then SetRequest(w, i, r.(phase := OnWire, retried := true, sent := r.sent + 1))
      else Moved(ReLogin(w), i, Done)
    case Ask => Refresh(w)
  }

  predicate Legal(w: World, run: seq<Step>)
    decreases |run|
  {
    run == [] || (Enabled(w, run[0]) && Legal(Apply(w, run[0]), run[1..]))
  }

  function Exec(w: World, run: seq<Step>): World
    requires Legal(w, run)
    decreases |run|
  {
    if run == [] then w else Exec(Apply(w, run[0]), run[1..])
  }

  // ---- What every step keeps ---------------------------------------------------------------------

  predicate RequestOk(w: World, r: Request) {
    && r.sent == (if r.phase == Idle then 0 else 1) + (if r.retried then 1 else 0)
    && (r.retried ==> !r.login && !r.skipAuthRetry && r.phase in {OnWire, Done})
    && (r.phase.Waiting? ==> w.promise == Some(r.phase.flight))
    && (r.phase.Waiting? || r.phase.Woken? ==> !r.login && !r.skipAuthRetry)
  }

  /** The promise stands for the one refresh under way; without it there is none. */
  predicate OneFlight(w: World) {
    && w.open + w.answered.Keys == (if w.promise.Some? then {w.promise.value} else {})
    && w.open !! w.answered.Keys
  }

  predicate Inv(w: World) { OneFlight(w) && forall i | 0 <= i < |w.requests| :: RequestOk(w, w.requests[i]) }

  /** A client just loaded, with requests none of which was sent. */
  predicate Starts(w: World) {
    && w.promise.None? && w.open == {} && w.answered == map[] && !w.redirecting && w.redirects == 0 && w.renewals == 0
    && forall i | 0 <= i < |w.requests| ::
         w.requests[i].phase == Idle && !w.requests[i].retried && w.requests[i].sent == 0
  }

  lemma FlightStep(w: World, st: Step)
    requires Enabled(w, st) && OneFlight(w)
    ensures OneFlight(Apply(w, st))
  {
    match st
    case Settle(f, ok) =>
      assert (w.open - {f}) + w.answered[f := ok].Keys == w.open + w.answered.Keys;
    case Finally(f) =>
      assert w.promise == Some(f);
    case _ =>
  }

  /** A step on one request keeps what is known of it. */
  lemma OwnRequestOk(w: World, st: Step)
    requires Enabled(w, st) && OneFlight(w) && (st.Transmit? || st.Respond? || st.Resume?)
    requires RequestOk(w, w.requests[st.i])
    ensures RequestOk(Apply(w, st), Apply(w, st).requests[st.i])
  {
  }

  /** And so do the steps on others, and those on the refresh. */
  lemma OtherRequestOk(w: World, st: Step, i: nat)
    requires Enabled(w, st) && OneFlight(w) && i < |w.requests| && RequestOk(w, w.requests[i])
    requires (st.Transmit? || st.Respond? || st.Resume?) ==> st.i != i
    ensures i < |Apply(w, st).requests| && RequestOk(Apply(w, st), Apply(w, st).requests[i])
  {
    if st.Finally? {
      assert w.promise == Some(st.flight);
    }
  }

  lemma StepKeepsInv(w: World, st: Step)
    requires Enabled(w, st) && Inv(w)
    ensures Inv(Apply(w, st)) && |Apply(w, st).requests| == |w.requests|
  {
    FlightStep(w, st);
    forall i | 0 <= i < |w.requests| ensures RequestOk(Apply(w, st), Apply(w, st).requests[i]) {
      if (st.Transmit? || st.Respond? || st.Resume?) && st.i == i {
        OwnRequestOk(w, st);
      } else {
        OtherRequestOk(w, st, i);
      }
    }
  }

  lemma {:induction false} RunKeepsInv(w: World, run: seq<Step>)
    requires Legal(w, run) && Inv(w)
    ensures Inv(Exec(w, run)) && |Exec(w, run).requests| == |w.requests|
    decreases |run|
  {
    if run != [] {
      StepKeepsInv(w, run[0]);
      RunKeepsInv(Apply(w, run[0]), run[1..]);
    }
  }

  /** In every run at most one refresh is under way. */
  lemma OneRefreshAtATime(w: World, run: seq<Step>, now: World, f: nat, g: nat)
    requires Starts(w) && Legal(w, run) && now == Exec(w, run)
    requires f in now.open + now.answered.Keys && g in now.open + now.answered.Keys
    ensures f == g && now.promise == Some(f)
  {
    RunKeepsInv(w, run);
  }

  /** In every run a request is sent at most twice, and twice only where the flags allow a retry. */
  lemma SentAtMostTwice(w: World, run: seq<Step>, now: World, i: nat)
    requires Starts(w) && Legal(w, run) && now == Exec(w, run) && i < |now.requests|
    ensures var r := now.requests[i]; r.sent <= 2 && (r.sent == 2 ==> r.retried && !r.login && !r.skipAuthRetry)
  {
    RunKeepsInv(w, run);
    assert RequestOk(now, now.requests[i]);
  }

  // ---- Redirects ---------------------------------------------------------------------------------

  /** The redirects left before a refresh succeeds again. */
  function Allowance(w: World): nat { if w.redirecting then 0 else 1 }

  lemma {:induction false} RedirectsArePaid(w: World, run: seq<Step>)
    requires Legal(w, run)
    ensures var now := Exec(w, run);
      && now.redirects + Allowance(now) + w.renewals <= w.redirects + Allowance(w) + now.renewals
      && w.renewals <= now.renewals
    decreases |run|
  {
    if run != [] {
      RedirectsArePaid(Apply(w, run[0]), run[1..]);
    }
  }

  /** Over any stretch of any run without a successful refresh there is at most one redirect, and none if one is
      already under way; over a whole run there is at most one more than successful refreshes. */
  lemma OneRedirectPerRenewal(w: World, run: seq<Step>, now: World)
    requires Legal(w, run) && now == Exec(w, run)
    ensures now.renewals == w.renewals ==> now.redirects <= w.redirects + Allowance(w)
    ensures Starts(w) ==> now.redirects <= now.renewals + 1
  {
    RedirectsArePaid(w, run);
  }

  /** Several calls in a row of refreshAuthTokenSingleFlight, and of forceReLogin. */
  function Refreshes(w: World, calls: nat): World { if calls == 0 then w else Refresh(Refreshes(w, calls - 1)) }

  function ReLogins(w: World, calls: nat): World { if calls == 0 then w else ReLogin(ReLogins(w, calls - 1)) }

  /** A burst of calls, however many, leaves exactly one refresh under way, the one the promise names; it is a new one
      only if there was none. */
  lemma {:induction false} BurstSharesOneRefresh(w: World, calls: nat)
    requires OneFlight(w) && 0 < calls
    ensures var t := Refreshes(w, calls);
      && t.promise.Some? && t.open + t.answered.Keys == {t.promise.value}
      && (w.promise.Some? ==> t == w) && (w.promise.None? ==> t.next == w.next + 1)
      && t.requests == w.requests && t.redirects == w.redirects
  {
    if 1 < calls {
      BurstSharesOneRefresh(w, calls - 1);
    }
  }

  /** A burst of forced logins redirects once in all, and not at all if a redirect is under way. */
  lemma {:induction false} BurstRedirectsOnce(w: World, calls: nat)
    requires 0 < calls
    ensures var t := ReLogins(w, calls);
      && t.redirects == w.redirects + Allowance(w) && Allowance(t) == 0
      && t.project == (if w.redirecting then w.project else None)
      && t.requests == w.requests && t.promise == w.promise
  {
    if 1 < calls {
      BurstRedirectsOnce(w, calls - 1);
    }
  }

  // ---- What a redirect comes from ----------------------------------------------------------------

  /** An expired session on a request that was already retried, or opted out of that. */
  predicate LastResort(w: World, st: Step) {
    && st.Respond? && st.i < |w.requests| && st.answer == Unauthorized(false)
    && !w.requests[st.i].login && (w.requests[st.i].retried || w.requests[st.i].skipAuthRetry)
  }

  ghost predicate SomeLastResort(w: World, run: seq<Step>)
    requires Legal(w, run)
    decreases |run|
  {
    run != [] && (LastResort(w, run[0]) || SomeLastResort(Apply(w, run[0]), run[1..]))
  }

  predicate SomeRefreshFails(run: seq<Step>) { exists k | 0 <= k < |run| :: run[k].Settle? && !run[k].ok }

  /** No refresh failed so far that anyone has yet to hear of. */
  predicate NoFailure(w: World) {
    && (forall f <- w.answered :: w.answered[f])
    && forall i | 0 <= i < |w.requests| :: w.requests[i].phase != Woken(false)
  }

  lemma {:induction false} NoCauseNoRedirect(w: World, run: seq<Step>)
    requires Legal(w, run) && NoFailure(w) && !SomeRefreshFails(run) && !SomeLastResort(w, run)
    ensures Exec(w, run).redirects == w.redirects && NoFailure(Exec(w, run))
    decreases |run|
  {
    if run != [] {
      assert !(run[0].Settle? && !run[0].ok);
      assert forall k | 0 <= k < |run[1..]| :: run[1..][k] == run[k + 1];
      NoCauseNoRedirect(Apply(w, run[0]), run[1..]);
    }
  }

  /** In every run a redirect happens only after a refresh failed, or after an expired session was reported for a
      request that was already retried or had opted out. */
  lemma RedirectHasCause(w: World, run: seq<Step>)
    requires Starts(w) && Legal(w, run) && 0 < Exec(w, run).redirects
    ensures SomeRefreshFails(run) || SomeLastResort(w, run)
  {
    if !SomeRefreshFails(run) && !SomeLastResort(w, run) {
      NoCauseNoRedirect(w, run);
    }
  }

  // ---- A request whose refresh succeeds is sent again ----------------------------------------------

  /** How the refresh f came out: as answered already, or as its answer in the run says. */
  ghost function OutcomeOf(w: World, run: seq<Step>, f: nat): Option<bool>
    decreases |run|
  {
    if f in w.answered then Some(w.answered[f])
    else if run == [] || !Enabled(w, run[0]) then None
    else OutcomeOf(Apply(w, run[0]), run[1..], f)
  }

  /** Where a request can be that has heard of the outcome: on its second way, or given up. */
  predicate Heard(r: Request, ok: bool) {
    if ok then r.sent == 2 && r.retried else r.phase == Done && r.sent == 1 && !r.retried
  }

  lemma {:induction false} HeardStays(w: World, run: seq<Step>, i: nat, ok: bool)
    requires Inv(w) && Legal(w, run) && i < |w.requests| && Heard(w.requests[i], ok)
    ensures i < |Exec(w, run).requests| && Heard(Exec(w, run).requests[i], ok)
    decreases |run|
  {
    if run != [] {
      StepKeepsInv(w, run[0]);
      assert RequestOk(w, w.requests[i]);
      HeardStays(Apply(w, run[0]), run[1..], i, ok);
    }
  }

  lemma {:induction false} WokenIsResent(w: World, run: seq<Step>, i: nat, ok: bool)
    requires Inv(w) && Legal(w, run) && i < |w.requests| && w.requests[i].phase == Woken(ok)
    ensures i < |Exec(w, run).requests|
    ensures var r := Exec(w, run).requests[i]; r.phase == Woken(ok) || Heard(r, ok)
    decreases |run|
  {
    if run != [] {
      StepKeepsInv(w, run[0]);
      assert RequestOk(w, w.requests[i]);
      var t := Apply(w, run[0]);
      if t.requests[i].phase == Woken(ok) {
        WokenIsResent(t, run[1..], i, ok);
      } else {
        HeardStays(t, run[1..], i, ok);
      }
    }
  }

  /** Along every run a request that waits for a refresh waits until that one is answered. If it succeeded, the request
      is then sent a second time, and if it failed, it is not; either way as soon as its turn comes. */
  lemma {:induction false} WaiterFollowsItsRefresh(w: World, run: seq<Step>, i: nat, f: nat)
    requires Inv(w) && Legal(w, run) && i < |w.requests| && w.requests[i].phase == Waiting(f)
    ensures i < |Exec(w, run).requests|
    ensures var r, outcome := Exec(w, run).requests[i], OutcomeOf(w, run, f);
      || r.phase == Waiting(f)
      || (outcome.Some? && (r.phase == Woken(outcome.value) || Heard(r, outcome.value)))
    decreases |run|
  {
    if run != [] {
      StepKeepsInv(w, run[0]);
      assert RequestOk(w, w.requests[i]);
      var t := Apply(w, run[0]);
      if t.requests[i].phase == Waiting(f) {
        WaiterFollowsItsRefresh(t, run[1..], i, f);
      } else {
        WokenIsResent(t, run[1..], i, w.answered[f]);
      }
    }
  }

  // ---- No request is stranded --------------------------------------------------------------------

  function Ahead(r: Request): nat {
    match r.phase
    case Idle => 10
    case OnWire => if r.retried then 1 else 9
    case Waiting(_) => 5
    case Woken(_) => 4
    case Done => 0
  }

  function Left(w: World): nat { Sum(w.requests, Ahead) + 2 * |w.open| + |w.answered.Keys| }

  lemma SettleProgresses(w: World, f: nat, ok: bool)
    requires OneFlight(w) && f in w.open
    ensures Left(Apply(w, Settle(f, ok))) < Left(w)
  {
    assert w.answered[f := ok].Keys == w.answered.Keys + {f};
    assert f !in w.answered.Keys && |w.open - {f}| == |w.open| - 1;
  }

  lemma FinallyProgresses(w: World, f: nat)
    requires OneFlight(w) && f in w.answered
    ensures Left(Apply(w, Finally(f))) < Left(w)
  {
    SumPointwise(w.requests, Wake(w.requests, f, w.answered[f]), Ahead, 0);
    assert (w.answered - {f}).Keys == w.answered.Keys - {f} && |w.answered.Keys - {f}| == |w.answered.Keys| - 1;
  }

  lemma RespondProgresses(w: World, i: nat, answer: Answer)
    requires Enabled(w, Respond(i, answer))
    ensures Left(Apply(w, Respond(i, answer))) < Left(w)
  {
    var w' := Apply(w, Respond(i, answer));
    SumUpdate(w.requests, Ahead, i, w'.requests[i]);
    assert w'.requests == w.requests[i := w'.requests[i]] && w'.answered == w.answered;
    assert |w.open + {w.next}| <= |w.open| + 1;
    assert Retries(w.requests[i], answer) ==> Ahead(w.requests[i]) == 9 && Ahead(w'.requests[i]) == 5;
    assert !Retries(w.requests[i], answer) ==> Ahead(w'.requests[i]) == 0 && w'.open == w.open;
  }

  lemma SendProgresses(w: World, st: Step)
    requires (st.Transmit? || st.Resume?) && Enabled(w, st) && RequestOk(w, w.requests[st.i])
    ensures Left(Apply(w, st)) < Left(w)
  {
    var w' := Apply(w, st);
    SumUpdate(w.requests, Ahead, st.i, w'.requests[st.i]);
    assert w'.requests == w.requests[st.i := w'.requests[st.i]] && w'.open == w.open && w'.answered == w.answered;
  }

  lemma AskCosts(w: World)
    ensures Left(Apply(w, Ask)) <= Left(w) + 2
  {
    assert |w.open + {w.next}| <= |w.open| + 1;
  }

  lemma StepProgresses(w: World, st: Step)
    requires Enabled(w, st) && Inv(w) && !st.Ask?
    ensures Left(Apply(w, st)) < Left(w)
  {
    match st
    case Settle(f, ok) => SettleProgresses(w, f, ok);
    case Finally(f) => FinallyProgresses(w, f);
    case Respond(i, answer) => RespondProgresses(w, i, answer);
    case _ => SendProgresses(w, st);
  }

  /** How often a refresh was asked for outside the interceptor. */
  function Asks(run: seq<Step>): nat { if run == [] then 0 else (if run[0].Ask? then 1 else 0) + Asks(run[1..]) }

  lemma {:induction false} RunIsShort(w: World, run: seq<Step>)
    requires Legal(w, run) && Inv(w)
    ensures |run| + Left(Exec(w, run)) <= Left(w) + 3 * Asks(run)
    decreases |run|
  {
    if run != [] {
      StepKeepsInv(w, run[0]);
      if run[0].Ask? {
        AskCosts(w);
      } else {
        StepProgresses(w, run[0]);
      }
      RunIsShort(Apply(w, run[0]), run[1..]);
    }
  }

  predicate Unsettled(w: World, i: nat)
    requires i < |w.requests|
  {
    w.requests[i].phase != Done
  }

  /** The step that takes a request on: nothing waits for what cannot happen. */
  function Onward(w: World, i: nat): Step
    requires i < |w.requests| && Unsettled(w, i)
  {
    match w.requests[i].phase
    case Idle => Transmit(i)
    case OnWire => Respond(i, Success)
    case Woken(_) => Resume(i)
    case Waiting(f) => if f in w.open then Settle(f, true) else Finally(f)
  }

  lemma {:induction false} TenStepsEach(rs: seq<Request>)
    requires forall i | 0 <= i < |rs| :: rs[i].phase == Idle
    ensures Sum(rs, Ahead) == 10 * |rs|
    decreases |rs|
  {
    if rs != [] {
      TenStepsEach(rs[..|rs| - 1]);
    }
  }

  /** In every run each request that is not answered for good can go on, and all of them can be made to end: no
      run is longer than ten steps a request, and three for each refresh asked for elsewhere. */
  lemma NobodyIsStranded(w: World, run: seq<Step>, now: World)
    requires Starts(w) && Legal(w, run) && now == Exec(w, run)
    ensures |run| <= 10 * |w.requests| + 3 * Asks(run)
    ensures forall i | 0 <= i < |now.requests| && Unsettled(now, i) :: Enabled(now, Onward(now, i))
  {
    RunIsShort(w, run);
    RunKeepsInv(w, run);
    TenStepsEach(w.requests);
    forall i | 0 <= i < |now.requests| && Unsettled(now, i)
      ensures Enabled(now, Onward(now, i))
    {
      assert RequestOk(now, now.requests[i]);
    }
  }

  // ---- The interceptor's code --------------------------------------------------------------------

  /** The module's variables, and the requests and refreshes it has under way. */
  class Client {
    var requests: seq<Request>
    var refreshPromise: Option<nat>
    var next: nat
    var open: set<nat>
    var answered: map<nat, bool>
    var authRedirecting: bool
    var project: Option<string>
    var redirects: nat
    var renewals: nat

    ghost function View(): World reads this {
      World(requests, refreshPromise, next, open, answered, authRedirecting, project, redirects, renewals)
    }

    method RefreshAuthTokenSingleFlight() returns (flight: nat)
      modifies this
      ensures View() == Apply(old(View()), Ask) && refreshPromise == Some(flight)
    {
      if refreshPromise.None? {
        refreshPromise := Some(next);
        open := open + {next};
        next := next + 1;
      }
      flight := refreshPromise.value;
    }

    method ForceReLogin()
      modifies this
      ensures View() == ReLogin(old(View()))
    {
      if authRedirecting {
        return;
      }
      authRedirecting := true;
      project := None;
      redirects := redirects + 1;
    }

    method SetPhase(i: nat, phase: Phase)
      requires i < |requests|
      modifies this`requests
      ensures View() == Moved(old(View()), i, phase)
    {
      requests := requests[i := requests[i].(phase := phase)];
    }

    /** The interceptor on an answer, up to its await. */
    method OnAnswer(i: nat, answer: Answer)
      requires Inv(View()) && Enabled(View(), Respond(i, answer))
      modifies this
      ensures Inv(View()) && View() == Apply(old(View()), Respond(i, answer))
      ensures var r := old(requests[i]);
        // An expired session, for the first time: the request waits for the one refresh.
        answer == Unauthorized(false) && !r.login && !r.skipAuthRetry && !r.retried ==>
          && refreshPromise.Some? && requests == old(requests)[i := r.(phase := Waiting(refreshPromise.value))]
          && (if old(refreshPromise).Some? then refreshPromise == old(refreshPromise) && open == old(open)
              else refreshPromise == Some(old(next)) && open == old(open) + {old(next)})
          && redirects == old(redirects) && project == old(project) && authRedirecting == old(authRedirecting)
      ensures var r := old(requests[i]);
        // Again, or on a request that opted out: off to the login page, unless already on the way.
        answer == Unauthorized(false) && !r.login && (r.skipAuthRetry || r.retried) ==>
          && requests == old(requests)[i := r.(phase := Done)] && open == old(open)
          && refreshPromise == old(refreshPromise) && authRedirecting
          && redirects == old(redirects) + (if old(authRedirecting) then 0 else 1)
          && project == if old(authRedirecting) then old(project) else None
      ensures var r := old(requests[i]);
        // Anything else is passed on.
        answer != Unauthorized(false) || r.login ==>
          && requests == old(requests)[i := r.(phase := Done)] && open == old(open)
          && refreshPromise == old(refreshPromise) && authRedirecting == old(authRedirecting)
          && redirects == old(redirects) && project == old(project)
    {
      StepKeepsInv(View(), Respond(i, answer));
      var config := requests[i];
      if answer.Unauthorized? {
        if config.login {
        } else if !config.skipAuthRetry && !config.retried && !answer.missingProject {
          var flight := RefreshAuthTokenSingleFlight();
          SetPhase(i, Waiting(flight));
          return;
        } else if !answer.missingProject {
          ForceReLogin();
        }
      }
      SetPhase(i, Done);
    }

    /** The interceptor after its await. */
    method AfterRefresh(i: nat)
      requires Inv(View()) && Enabled(View(), Resume(i))
      modifies this
      ensures Inv(View()) && View() == Apply(old(View()), Resume(i))
      ensures var r := old(requests[i]);
        if r.phase == Woken(true) then
          && requests == old(requests)[i := r.(phase := OnWire, retried := true, sent := r.sent + 1)]
          && redirects == old(redirects) && project == old(project)
        else
          && requests == old(requests)[i := r.(phase := Done)] && authRedirecting
          && redirects == old(redirects) + if old(authRedirecting) then 0 else 1
    {
      StepKeepsInv(View(), Resume(i));
      if requests[i].phase.renewed {
        requests := requests[i := requests[i].(retried := true)];
        requests := requests[i := requests[i].(phase := OnWire, sent := requests[i].sent + 1)];
      } else {
        ForceReLogin();
        SetPhase(i, Done);
      }
    }

    method RefreshAnswered(flight: nat, ok: bool)
      requires Inv(View()) && Enabled(View(), Settle(flight, ok))
      modifies this
      ensures Inv(View()) && View() == Apply(old(View()), Settle(flight, ok))
      ensures authRedirecting == if ok then false else old(authRedirecting)
    {
      StepKeepsInv(View(), Settle(flight, ok));
      open := open - {flight};
      answered := answered[flight := ok];
      if ok {
        authRedirecting := false;
        renewals := renewals + 1;
      }
    }

    method RefreshFinally(flight: nat)
      requires Inv(View()) && Enabled(View(), Finally(flight))
      modifies this
      ensures Inv(View()) && View() == Apply(old(View()), Finally(flight))
      ensures refreshPromise == None && |requests| == |old(requests)| && forall i | 0 <= i < |requests| ::
        requests[i] ==
          if old(requests)[i].phase == Waiting(flight) then old(requests)[i].(phase := Woken(old(answered)[flight]))
          else old(requests)[i]
    {
      StepKeepsInv(View(), Finally(flight));
      refreshPromise := None;
      var ok := answered[flight];
      answered := answered - {flight};
      requests := Wake(requests, flight, ok);
    }
  }
}
