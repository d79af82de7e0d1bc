/** console/src/hooks/useProjectScopeSync.ts and useAuth.tsx: any number of browser tabs that share the selected
    project through localStorage, its storage events and an effect that follows the URL. */
module ProjectScope {
  import opened Wrappers
  import opened Sums

  // ---- One tab -----------------------------------------------------------------------------------

  /** What a render saw: the URL's project and the selected one. */
  datatype Seen = Seen(url: string, selected: Option<string>)

  /** A tab. `url` is "" when the page has no project, as is `lastPushed` when the ref is undefined; `rendered` is
      what the last render saw, `scheduled` says that its effect has yet to run, and `inbox` counts the storage
      events under way to the tab. */
  datatype Tab = Tab(
    selected: Option<string>, url: string, lastPushed: string, rendered: Option<Seen>, scheduled: bool, inbox: nat)

  function Now(tab: Tab): Option<Seen> { Some(Seen(tab.url, tab.selected)) }

  predicate ValidTab(tab: Tab) { tab.scheduled ==> tab.rendered.Some? }

  /** The effect of a render that saw `seen` selects the URL's project. */
  predicate Pushes(tab: Tab, seen: Seen) {
    seen.url != "" && tab.lastPushed != seen.url && seen.selected != Some(seen.url)
  }

  // ---- All tabs ----------------------------------------------------------------------------------

  /** `pushes` counts selections made by effects, `arrivals` the times a tab's URL came to name a project. */
  datatype World = World(storage: Option<string>, tabs: seq<Tab>, pushes: nat, arrivals: nat)

  datatype Step =
    | Open(t: nat)                   // the page is loaded anew
    | Mount(t: nat, url: string)     // another component instance, with a fresh ref
    | Navigate(t: nat, url: string)  // the same component instance sees another URL
    | Select(t: nat, id: string)
    | Logout(t: nat)
    | ReLogin(t: nat)                // the session expired: clear the project and load the login page
    | Render(t: nat)
    | Effect(t: nat)
    | Deliver(t: nat)

  predicate Internal(st: Step) { st.Render? || st.Effect? || st.Deliver? }

  function Init(tabs: nat): World { World(None, seq(tabs, _ => Fresh(None)), 0, 0) }

  function Fresh(storage: Option<string>): Tab { Tab(storage, "", "", None, false, 0) }

  /** setProjectID: an empty id removes the key. */
  function Stored(v: Option<string>): Option<string> { if v == Some("") then None else v }

  /** A write is announced to every other tab, and only if it changes the value. */
  function Write(w: World, t: nat, v: Option<string>): World {
    if w.storage == Stored(v) then w
    else w.(storage := Stored(v), tabs := Notify(w.tabs, t))
  }

  function Notify(tabs: seq<Tab>, t: nat): seq<Tab> {
    seq(|tabs|, i requires 0 <= i < |tabs| => if i == t then tabs[i] else tabs[i].(inbox := tabs[i].inbox + 1))
  }

  function SetTab(w: World, t: nat, tab: Tab): World
    requires t < |w.tabs|
  {
    w.(tabs := w.tabs[t := tab])
  }

  function Choose(w: World, t: nat, v: Option<string>): World
    requires t < |w.tabs|
  {
    var w' := Write(w, t, v);
    SetTab(w', t, w'.tabs[t].(selected := v))
  }

  predicate Enabled(w: World, st: Step) {
    && st.t < |w.tabs|
    && match st
       case Render(t) => !w.tabs[t].scheduled && w.tabs[t].rendered != Now(w.tabs[t])
       case Effect(t) => w.tabs[t].scheduled && w.tabs[t].rendered.Some?
       case Deliver(t) => 0 < w.tabs[t].inbox
       case _ => true
  }

  function Arrived(tab: Tab, url: string): nat { if url != "" && url != tab.url then 1 else 0 }

  function EffectRuns(w: World, t: nat): World
    requires Enabled(w, Effect(t))
  {
    var tab := w.tabs[t];
    var seen := tab.rendered.value;
    var w' := SetTab(w, t, tab.(scheduled := false, lastPushed := seen.url));
    if Pushes(tab, seen) then Choose(w', t, Some(seen.url)).(pushes := w.pushes + 1) else w'
  }

  function Apply(w: World, st: Step): World
    requires Enabled(w, st)
  {
    var tab := w.tabs[st.t];
    match st
    case Open(t) => SetTab(w, t, Fresh(w.storage))
    case Mount(t, url) =>
      SetTab(w, t, tab.(url := url, lastPushed := "", rendered := None, scheduled := false))
        .(arrivals := w.arrivals + if url == "" then 0 else 1)
    case Navigate(t, url) => SetTab(w, t, tab.(url := url)).(arrivals := w.arrivals + Arrived(tab, url))
    case Select(t, id) => Choose(w, t, Some(id))
    case Logout(t) => Choose(w, t, None)
    case ReLogin(t) => var w' := Write(w, t, None); SetTab(w', t, Fresh(w'.storage))
    case Render(t) => SetTab(w, t, tab.(rendered := Now(tab), scheduled := true))
    case Effect(t) => EffectRuns(w, t)
    case Deliver(t) => SetTab(w, t, tab.(selected := w.storage, inbox := tab.inbox - 1))
  }

  predicate Legal(w: World, run: seq<Step>)
    decreases |run|
  {
    run == [] || (Enabled(w, run[0]) && Legal(Apply(w, run[0]), run[1..]))
  }

  function Exec(w: World, run: seq<Step>): World
    requires Legal(w, run)
    decreases |run|
  {
    if run == [] then w else Exec(Apply(w, run[0]), run[1..])
  }

  // ---- Every tab ends up with the stored selection -----------------------------------------------

  /** A tab with no event under way shows what is stored; the empty id is stored as no selection. */
  predicate Agrees(w: World, tab: Tab) { ValidTab(tab) && (tab.inbox == 0 ==> Stored(tab.selected) == w.storage) }

  predicate Coherent(w: World) {
    w.storage != Some("") && forall i | 0 <= i < |w.tabs| :: Agrees(w, w.tabs[i])
  }

  lemma ChooseKeepsCoherent(w: World, t: nat, v: Option<string>)
    requires Coherent(w) && t < |w.tabs|
    ensures Coherent(Choose(w, t, v))
  {
  }

  lemma StepKeepsCoherent(w: World, st: Step)
    requires Coherent(w) && Enabled(w, st)
    ensures Coherent(Apply(w, st)) && |Apply(w, st).tabs| == |w.tabs|
  {
    match st
    case Select(t, id) => ChooseKeepsCoherent(w, t, Some(id));
    case Logout(t) => ChooseKeepsCoherent(w, t, None);
    case Effect(t) =>
      var w' := SetTab(w, t, w.tabs[t].(scheduled := false, lastPushed := w.tabs[t].rendered.value.url));
      assert Coherent(w');
      ChooseKeepsCoherent(w', t, Some(w.tabs[t].rendered.value.url));
    case _ =>
  }

  lemma {:induction false} RunKeepsCoherent(w: World, run: seq<Step>)
    requires Coherent(w) && Legal(w, run)
    ensures Coherent(Exec(w, run)) && |Exec(w, run).tabs| == |w.tabs|
    decreases |run|
  {
    if run != [] {
      StepKeepsCoherent(w, run[0]);
      RunKeepsCoherent(Apply(w, run[0]), run[1..]);
    }
  }

  /** In every run of any number of tabs: a tab without undelivered storage events selects what is stored. */
  lemma Converges(tabs: nat, run: seq<Step>, w: World, t: nat)
    requires Legal(Init(tabs), run) && w == Exec(Init(tabs), run) && t < |w.tabs| && w.tabs[t].inbox == 0
    ensures Stored(w.tabs[t].selected) == w.storage
  {
    RunKeepsCoherent(Init(tabs), run);
    assert Agrees(w, w.tabs[t]);
  }

  // ---- Effects write at most once for each arrival at a project ----------------------------------

  function One(b: bool): nat { if b then 1 else 0 }

  /** The pushes a tab still has in store: its scheduled effect's, and that of a later render. */
  function Credit(tab: Tab): nat {
    var next := if tab.scheduled && tab.rendered.Some? then tab.rendered.value.url else tab.lastPushed;
    One(next != "" && next != tab.lastPushed) + One(tab.url != "" && tab.url != next)
  }

  function Credits(w: World): nat { Sum(w.tabs, Credit) }

  lemma SameCredits(tabs: seq<Tab>, t: nat)
    ensures Sum(Notify(tabs, t), Credit) <= Sum(tabs, Credit)
  {
    SumPointwise(tabs, Notify(tabs, t), Credit, 0);
  }

  lemma ChooseKeepsCredits(w: World, t: nat, v: Option<string>)
    requires t < |w.tabs|
    ensures Credits(Choose(w, t, v)) <= Credits(w)
  {
    SameCredits(w.tabs, t);
    var w' := Write(w, t, v);
    SumUpdate(w'.tabs, Credit, t, w'.tabs[t].(selected := v));
  }

  lemma EffectPays(w: World, t: nat, after: Tab, mid: World)
    requires Enabled(w, Effect(t)) && mid == SetTab(w, t, after)
    requires after == w.tabs[t].(scheduled := false, lastPushed := w.tabs[t].rendered.value.url)
    ensures var w' := EffectRuns(w, t); w'.pushes + Credits(w') <= w.pushes + Credits(w)
  {
    var tab := w.tabs[t];
    assert Credit(after) + One(Pushes(tab, tab.rendered.value)) <= Credit(tab);
    SumUpdate(w.tabs, Credit, t, after);
    ChooseKeepsCredits(mid, t, Some(tab.rendered.value.url));
  }

  /** Steps that only touch one tab and the counter of arrivals. */
  lemma OwnStepPays(w: World, st: Step)
    requires Enabled(w, st) && (st.Open? || st.Mount? || st.Navigate? || st.Render? || st.Deliver?)
    ensures var w' := Apply(w, st); w'.pushes + Credits(w') + w.arrivals <= w.pushes + Credits(w) + w'.arrivals
  {
    SumUpdate(w.tabs, Credit, st.t, Apply(w, st).tabs[st.t]);
  }

  /** No step raises pushes and credits together by more than it raises arrivals. */
  lemma StepPays(w: World, st: Step)
    requires Enabled(w, st)
    ensures var w' := Apply(w, st); w'.pushes + Credits(w') + w.arrivals <= w.pushes + Credits(w) + w'.arrivals
  {
    match st
    case Select(t, id) => ChooseKeepsCredits(w, t, Some(id));
    case Logout(t) => ChooseKeepsCredits(w, t, None);
    case ReLogin(t) =>
      SameCredits(w.tabs, t);
      var w' := Write(w, t, None);
      SumUpdate(w'.tabs, Credit, t, Fresh(w'.storage));
    case Effect(t) =>
      var after := w.tabs[t].(scheduled := false, lastPushed := w.tabs[t].rendered.value.url);
      EffectPays(w, t, after, SetTab(w, t, after));
    case _ => OwnStepPays(w, st);
  }

  lemma {:induction false} RunPays(w: World, run: seq<Step>)
    requires Legal(w, run)
    ensures var w' := Exec(w, run); w'.pushes + Credits(w') + w.arrivals <= w.pushes + Credits(w) + w'.arrivals
    decreases |run|
  {
    if run != [] {
      StepPays(w, run[0]);
      RunPays(Apply(w, run[0]), run[1..]);
    }
  }

  lemma {:induction false} NoCredit(tabs: seq<Tab>)
    requires forall i | 0 <= i < |tabs| :: Credit(tabs[i]) == 0
    ensures Sum(tabs, Credit) == 0
    decreases |tabs|
  {
    if tabs != [] {
      NoCredit(tabs[..|tabs| - 1]);
    }
  }

  /** Whatever the tabs do, effects select no more often than tabs arrive at a project's URL. */
  lemma PushesFollowArrivals(tabs: nat, run: seq<Step>)
    requires Legal(Init(tabs), run)
    ensures Exec(Init(tabs), run).pushes <= Exec(Init(tabs), run).arrivals
  {
    NoCredit(Init(tabs).tabs);
    RunPays(Init(tabs), run);
  }

  // ---- No ping-pong ------------------------------------------------------------------------------

  /** What is left to do in a tab, when a push costs k. */
  function Work(k: nat): Tab -> nat {
    (tab: Tab) => k * Credit(tab) + 3 * tab.inbox + One(tab.scheduled) + 2 * One(tab.rendered != Now(tab))
  }

  function PushCost(w: World): nat { 3 * |w.tabs| + 3 }

  function Measure(w: World): nat { Sum(w.tabs, Work(PushCost(w))) }

  lemma SelectionWork(k: nat, tab: Tab, v: Option<string>)
    ensures Work(k)(tab.(selected := v)) <= Work(k)(tab) + 2
  {
    assert Credit(tab.(selected := v)) == Credit(tab);
  }

  lemma EventWork(k: nat, tab: Tab)
    ensures Work(k)(tab.(inbox := tab.inbox + 1)) == Work(k)(tab) + 3
  {
    assert Credit(tab.(inbox := tab.inbox + 1)) == Credit(tab);
  }

  lemma RenderWork(k: nat, tab: Tab)
    requires !tab.scheduled && tab.rendered != Now(tab)
    ensures Work(k)(tab.(rendered := Now(tab), scheduled := true)) < Work(k)(tab)
  {
    assert Credit(tab.(rendered := Now(tab), scheduled := true)) == Credit(tab);
  }

  lemma EffectWork(k: nat, tab: Tab, after: Tab)
    requires tab.scheduled && tab.rendered.Some?
    requires after == tab.(scheduled := false, lastPushed := tab.rendered.value.url)
    ensures Work(k)(after) + (if Pushes(tab, tab.rendered.value) then k else 0) < Work(k)(tab)
  {
    var c, d := Credit(after), Credit(tab);
    var one := One(Pushes(tab, tab.rendered.value));
    assert c + one <= d;
    assert k * (c + one) <= k * d;
  }

  lemma ChooseWork(w: World, k: nat, t: nat, v: Option<string>)
    requires t < |w.tabs|
    ensures Sum(Choose(w, t, v).tabs, Work(k)) <= Sum(w.tabs, Work(k)) + 3 * |w.tabs| + 2
  {
    var f, told, tabs := Work(k), Notify(w.tabs, t), Write(w, t, v).tabs;
    forall i | 0 <= i < |w.tabs|
      ensures f(told[i]) <= f(w.tabs[i]) + 3
    {
      EventWork(k, w.tabs[i]);
    }
    SumPointwise(w.tabs, told, f, 3);
    SelectionWork(k, tabs[t], v);
    SumUpdate(tabs, f, t, tabs[t].(selected := v));
  }

  lemma EffectCosts(w: World, t: nat, k: nat, after: Tab, mid: World)
    requires Enabled(w, Effect(t)) && k >= 3 * |w.tabs| + 3 && mid == SetTab(w, t, after)
    requires after == w.tabs[t].(scheduled := false, lastPushed := w.tabs[t].rendered.value.url)
    ensures Sum(mid.tabs, Work(k)) < Sum(w.tabs, Work(k))
    ensures Pushes(w.tabs[t], w.tabs[t].rendered.value) ==>
      Sum(Choose(mid, t, Some(w.tabs[t].rendered.value.url)).tabs, Work(k)) < Sum(w.tabs, Work(k))
  {
    EffectWork(k, w.tabs[t], after);
    SumUpdate(w.tabs, Work(k), t, after);
    ChooseWork(mid, k, t, Some(w.tabs[t].rendered.value.url));
  }

  lemma RenderCosts(w: World, t: nat, k: nat)
    requires Enabled(w, Render(t))
    ensures Sum(Apply(w, Render(t)).tabs, Work(k)) < Sum(w.tabs, Work(k))
  {
    RenderWork(k, w.tabs[t]);
    SumUpdate(w.tabs, Work(k), t, w.tabs[t].(rendered := Now(w.tabs[t]), scheduled := true));
  }

  lemma DeliverCosts(w: World, t: nat, k: nat)
    requires Enabled(w, Deliver(t))
    ensures Sum(Apply(w, Deliver(t)).tabs, Work(k)) < Sum(w.tabs, Work(k))
  {
    var taken := w.tabs[t].(inbox := w.tabs[t].inbox - 1);
    EventWork(k, taken);
    SelectionWork(k, taken, w.storage);
    SumUpdate(w.tabs, Work(k), t, taken.(selected := w.storage));
  }

  /** Every internal step leaves less to do. */
  lemma InternalStepProgresses(w: World, st: Step)
    requires Enabled(w, st) && Internal(st)
    ensures Measure(Apply(w, st)) < Measure(w)
  {
    var k := PushCost(w);
    match st
    case Render(t) => RenderCosts(w, t, k);
    case Deliver(t) => DeliverCosts(w, t, k);
    case Effect(t) =>
      var after := w.tabs[t].(scheduled := false, lastPushed := w.tabs[t].rendered.value.url);
      EffectCosts(w, t, k, after, SetTab(w, t, after));
  }

  predicate AllInternal(run: seq<Step>) { forall k | 0 <= k < |run| :: Internal(run[k]) }

  /** Left alone, the tabs come to rest: no run of renders, effects and deliveries is longer than the measure. */
  lemma {:induction false} NoPingPong(w: World, run: seq<Step>)
    requires Legal(w, run) && AllInternal(run)
    ensures |run| + Measure(Exec(w, run)) <= Measure(w)
    decreases |run|
  {
    if run != [] {
      InternalStepProgresses(w, run[0]);
      NoPingPong(Apply(w, run[0]), run[1..]);
    }
  }

  predicate AtRest(w: World) {
    forall t | 0 <= t < |w.tabs| :: !Enabled(w, Render(t)) && !Enabled(w, Effect(t)) && !Enabled(w, Deliver(t))
  }

  /** At rest, every tab selects what is stored, and has rendered it. */
  lemma RestIsAgreement(tabs: nat, run: seq<Step>, w: World, t: nat)
    requires Legal(Init(tabs), run) && w == Exec(Init(tabs), run) && AtRest(w) && t < |w.tabs|
    ensures Stored(w.tabs[t].selected) == w.storage && w.tabs[t].rendered == Now(w.tabs[t])
  {
    RunKeepsCoherent(Init(tabs), run);
    assert !Enabled(w, Render(t)) && !Enabled(w, Effect(t)) && !Enabled(w, Deliver(t));
    assert Agrees(w, w.tabs[t]);
  }

  // ---- A choice stands ---------------------------------------------------------------------------

  predicate NothingToPush(w: World) { forall i | 0 <= i < |w.tabs| :: Credit(w.tabs[i]) == 0 }

  /** Once every URL has been pushed, nothing but a user or a navigation changes the stored selection. */
  lemma {:induction false} ChoiceStands(w: World, run: seq<Step>)
    requires Legal(w, run) && AllInternal(run) && NothingToPush(w)
    ensures Exec(w, run).storage == w.storage && Exec(w, run).pushes == w.pushes
    decreases |run|
  {
    if run != [] {
      var w' := Apply(w, run[0]);
      assert Credit(w.tabs[run[0].t]) == 0;
      assert NothingToPush(w');
      ChoiceStands(w', run[1..]);
    }
  }

  /** When a tab's effect first sees a URL, the tab ends up on that project exactly if the effect selects it or
      the tab is there already; a render that saw the URL's project just before a storage event replaced it does
      neither, and the later effects of that URL return early. */
  lemma FirstEffectSyncs(w: World, t: nat)
    requires Enabled(w, Effect(t)) && w.tabs[t].rendered.value.url !in {"", w.tabs[t].lastPushed}
    ensures var seen := w.tabs[t].rendered.value;
      var after := Apply(w, Effect(t)).tabs[t];
      after.lastPushed == seen.url
      && (after.selected == Some(seen.url) <==>
           !(seen.selected == Some(seen.url) && w.tabs[t].selected != Some(seen.url)))
  {
  }

  /** A run from w that ends in u. */
  predicate Reaches(w: World, run: seq<Step>, u: World) { Legal(w, run) && Exec(w, run) == u }

  lemma {:induction false} Reach(w: World, run: seq<Step>, u: World, st: Step, t: World) returns (next: seq<Step>)
    requires Reaches(w, run, u) && Enabled(u, st) && t == Apply(u, st)
    ensures next == run + [st] && Reaches(w, next, t)
    decreases |run|
  {
    next := run + [st];
    if run == [] {
      assert next[1..] == [];
    } else {
      var rest := Reach(Apply(w, run[0]), run[1..], u, st, t);
      assert next[1..] == rest;
    }
  }

  /** Two tabs, the first on the page of project a and showing project b, with nothing left to do in it. */
  const Unsynced :=
    World(Some("b"),
          [Tab(Some("b"), "a", "a", Some(Seen("a", Some("a"))), false, 0), Tab(Some("b"), "", "", None, false, 1)],
          0, 1)

  /** A run gets there: a render on page a, just before the other tab's choice of b arrives. From then on no render,
      effect or delivery changes what is stored. */
  lemma StaleRenderLeavesUnsynced(more: seq<Step>) returns (run: seq<Step>)
    ensures Reaches(Init(2), run, Unsynced) && !Enabled(Unsynced, Effect(0)) && !Enabled(Unsynced, Deliver(0))
    ensures Legal(Unsynced, more) && AllInternal(more) ==> Exec(Unsynced, more).storage == Some("b")
  {
    var q := Fresh(None);
    var p := q.(selected := Some("a"));
    var w1 := World(Some("a"), [p, q.(inbox := 1)], 0, 0);
    var w2 := World(Some("a"), [p.(url := "a"), q.(inbox := 1)], 0, 1);
    var p3 := p.(url := "a", rendered := Some(Seen("a", Some("a"))), scheduled := true);
    var w3 := World(Some("a"), [p3, q.(inbox := 1)], 0, 1);
    var w4 := World(Some("b"), [p3.(inbox := 1), q.(selected := Some("b"), inbox := 1)], 0, 1);
    var w5 := World(Some("b"), [p3.(selected := Some("b")), q.(selected := Some("b"), inbox := 1)], 0, 1);
    assert Init(2) == World(None, [q, q], 0, 0);
    run := Reach(Init(2), [], Init(2), Select(0, "a"), w1);
    run := Reach(Init(2), run, w1, Navigate(0, "a"), w2);
    run := Reach(Init(2), run, w2, Render(0), w3);
    run := Reach(Init(2), run, w3, Select(1, "b"), w4);
    run := Reach(Init(2), run, w4, Deliver(0), w5);
    run := Reach(Init(2), run, w5, Effect(0), Unsynced);
    if Legal(Unsynced, more) && AllInternal(more) {
      ChoiceStands(Unsynced, more);
    }
  }

  // ---- The hooks' code ---------------------------------------------------------------------------

  const PROJECT_STORAGE_KEY := "TORCHWOOD_console_project"

  /** localStorage and the tabs around it. */
  class Browser {
    var world: World

    constructor (tabs: nat)
      ensures world == Init(tabs) && Coherent(world)
    {
      world := Init(tabs);
    }
  }

  /** The callbacks of one tab, each run to completion. */
  class ConsoleTab {
    const browser: Browser
    const t: nat

    ghost predicate Valid() reads browser { t < |browser.world.tabs| && Coherent(browser.world) }

    constructor (browser: Browser, t: nat)
      requires t < |browser.world.tabs|
      ensures this.browser == browser && this.t == t
    {
      this.browser, this.t := browser, t;
    }

    method SetItem(v: Option<string>)
      modifies browser
      ensures browser.world == Write(old(browser.world), t, v)
    {
      browser.world := Write(browser.world, t, v);
    }

    method SetProjectID(projectID: Option<string>)
      modifies browser
      ensures browser.world == Write(old(browser.world), t, projectID)
    {
      if projectID.Some? && projectID.value != "" {
        SetItem(projectID);
      } else {
        SetItem(None);
      }
    }

    method SetProjectIdState(v: Option<string>)
      requires t < |browser.world.tabs|
      modifies browser
      ensures browser.world == SetTab(old(browser.world), t, old(browser.world.tabs[t]).(selected := v))
    {
      browser.world := SetTab(browser.world, t, browser.world.tabs[t].(selected := v));
    }

    method SelectProject(projectID: string)
      requires Valid()
      modifies browser
      ensures Valid() && browser.world == Apply(old(browser.world), Select(t, projectID))
      ensures browser.world.storage == Stored(Some(projectID)) && browser.world.tabs[t].selected == Some(projectID)
    {
      StepKeepsCoherent(browser.world, Select(t, projectID));
      SetProjectID(Some(projectID));
      SetProjectIdState(Some(projectID));
    }

    method LogOut()
      requires Valid()
      modifies browser
      ensures Valid() && browser.world == Apply(old(browser.world), Logout(t))
      ensures browser.world.storage == None && browser.world.tabs[t].selected == None
    {
      StepKeepsCoherent(browser.world, Logout(t));
      SetProjectID(None);
      SetProjectIdState(None);
    }

    /** The storage listener; the key is none when the whole storage was cleared. */
    method OnStorage(key: Option<string>)
      requires Valid() && Enabled(browser.world, Deliver(t))
      modifies browser
      ensures Valid()
      ensures key in {None, Some(PROJECT_STORAGE_KEY)} ==> browser.world == Apply(old(browser.world), Deliver(t))
      ensures key !in {None, Some(PROJECT_STORAGE_KEY)} ==> browser.world == old(browser.world)
    {
      StepKeepsCoherent(browser.world, Deliver(t));
      if key.Some? && key.value != PROJECT_STORAGE_KEY {
        return;
      }
      browser.world := SetTab(browser.world, t, browser.world.tabs[t].(inbox := browser.world.tabs[t].inbox - 1));
      SetProjectIdState(browser.world.storage);
    }

    /** The effect of a render, on the values that render saw. */
    method SyncEffect()
      requires Valid() && Enabled(browser.world, Effect(t))
      modifies browser
      ensures Valid() && browser.world == Apply(old(browser.world), Effect(t))
    {
      StepKeepsCoherent(browser.world, Effect(t));
      ghost var before := browser.world;
      var seen := browser.world.tabs[t].rendered.value;
      var lastPushed := browser.world.tabs[t].lastPushed;
      browser.world := SetTab(browser.world, t, browser.world.tabs[t].(scheduled := false));
      if seen.url == "" {
        SetLastPushed("");
        return;
      }
      if lastPushed == seen.url {
        return;
      }
      SetLastPushed(seen.url);
      if seen.selected != Some(seen.url) {
        browser.world := browser.world.(pushes := browser.world.pushes + 1);
        SetProjectID(Some(seen.url));
        SetProjectIdState(Some(seen.url));
      }
    }

    method SetLastPushed(url: string)
      requires t < |browser.world.tabs|
      modifies browser
      ensures browser.world == SetTab(old(browser.world), t, old(browser.world.tabs[t]).(lastPushed := url))
    {
      browser.world := SetTab(browser.world, t, browser.world.tabs[t].(lastPushed := url));
    }
  }
}
