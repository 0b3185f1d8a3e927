/**
 * The planner as one state machine: the session, the progress animation
 * and the pending gateway call, driven by the user's actions on the shown
 * screen, by the gateway settling, and by the animation timer.
 */
module App {
  import opened Wrappers
  import opened Competitors
  import opened Progress
  import opened Workflow

  /**
   * `pending` stands for the `startAnalysis` call suspended at its `await`:
   * the request it made, until the gateway settles it.
   */
  datatype State<O> = State(session: Session<O>, ticker: Ticker, pending: Option<Request>)

  /** What can happen to the page. Each control exists on one screen only. */
  datatype Event<O> =
    | EditKeywords(keywords: string)          // setup screen
    | EditCountry(country: string)            // setup screen
    | EditCompetitors(competitors: string)    // setup screen
    | ClickStart                              // setup screen
    | GatewaySettled(outcome: Outcome<O>)     // the awaited call ends
    | ClickReconfigure                        // outline screen
    | ClickOpenEditor                         // outline screen
    | TimerTick(r: real)                      // the animation's interval, while analysing

  predicate ValidEvent<O>(e: Event<O>) {
    e.TimerTick? ==> ValidIncrement(e.r)
  }

  /** After mounting: the effect has already run once for the setup screen, showing 100 %. */
  function Init<O>(): (r: State<O>)
    ensures r.session.step == Setup && r.session.outline == None
    ensures r.pending == None && r.ticker.progress == Done
    ensures !CanStart(r.session)
  {
    State(Workflow.Initial(), Ticker(Done, 0), None)
  }

  /** Installs a new session; the progress effect reruns only when the screen changed. */
  function WithSession<O>(st: State<O>, s: Session<O>): (st': State<O>)
    ensures st'.session == s && st'.pending == st.pending
    ensures s.step == st.session.step ==> st'.ticker == st.ticker
    ensures s.step != st.session.step && s.step == Analyzing ==> st'.ticker == Start
    ensures s.step != st.session.step && s.step != Analyzing ==> st'.ticker.progress == Done
  {
    var ticker := if s.step != st.session.step then OnScreenChange(st.ticker, s.step == Analyzing) else st.ticker;
    State(s, ticker, st.pending)
  }

  /**
   * One event, with the timer running the tick of variant `v`. A control
   * that is not on the shown screen cannot be used, so its event changes
   * nothing.
   */
  function Dispatch<O>(v: Variant, st: State<O>, e: Event<O>): (r: State<O>)
    requires ValidEvent(e)
    ensures st.session.step != Setup && (e.EditKeywords? || e.EditCountry? || e.EditCompetitors? || e.ClickStart?) ==> r == st
    ensures st.session.step != OutlineReady && (e.ClickReconfigure? || e.ClickOpenEditor?) ==> r == st
    ensures st.session.step != Analyzing && e.TimerTick? ==> r == st
    ensures e.GatewaySettled? && st.pending.None? ==> r == st
    ensures e.TimerTick? ==> r.session == st.session && r.pending == st.pending
    ensures !e.TimerTick? && r.session.step == st.session.step ==> r.ticker == st.ticker
    ensures st.session.step == Setup && e.EditKeywords? ==> r == st.(session := st.session.(keywords := e.keywords))
    ensures st.session.step == Setup && e.EditCountry? ==> r == st.(session := st.session.(country := e.country))
    ensures st.session.step == Setup && e.EditCompetitors? ==> r == st.(session := st.session.(competitors := e.competitors))
    ensures st.session.step == OutlineReady && e.ClickReconfigure? ==>
              r.session == Reconfigure(st.session) && r.session.step == Setup && r.pending == st.pending
    ensures st.session.step == OutlineReady && e.ClickOpenEditor? ==>
              r.session == OpenEditor(st.session) && r.session.step == Editor && r.pending == st.pending
  {
    var s := st.session;
    match e
    case EditKeywords(k) => if s.step == Setup then WithSession(st, s.(keywords := k)) else st
    case EditCountry(c) => if s.step == Setup then WithSession(st, s.(country := c)) else st
    case EditCompetitors(c) => if s.step == Setup then WithSession(st, s.(competitors := c)) else st
    case ClickStart =>
      if s.step == Setup then
        var (s', request) := StartAnalysis(s);
        WithSession(st, s').(pending := request)
      else st
    case GatewaySettled(outcome) =>
      if st.pending.Some? then WithSession(st, Settle(s, outcome)).(pending := None) else st
    case ClickReconfigure => if s.step == OutlineReady then WithSession(st, Reconfigure(s)) else st
    case ClickOpenEditor => if s.step == OutlineReady then WithSession(st, OpenEditor(s)) else st
    case TimerTick(r) => if s.step == Analyzing then st.(ticker := TickOf(v, st.ticker, r)) else st
  }

  /** The gateway call `startAnalysis` makes for the current fields. */
  function RequestFor<O>(s: Session<O>): Request {
    Request(s.keywords, s.country, Normalize(s.competitors))
  }

  /**
   * What holds in every reachable state: a gateway call is in flight
   * exactly while the analysing screen shows, and it was made with the
   * current fields; while analysing, the percentage lies in [0, 98] and the
   * status line agrees with it as far as variant `v` keeps it; on any other
   * screen it shows 100 %; the message index never passes the last one `v`
   * can show; the outline and editor screens always have an outline to
   * show.
   */
  predicate Inv<O>(v: Variant, st: State<O>) {
    var s := st.session;
    && (st.pending.Some? <==> s.step == Analyzing)
    && (st.pending.Some? ==> st.pending.value == RequestFor(s))
    && (s.step == Analyzing ==> SyncOf(v, st.ticker))
    && (s.step != Analyzing ==> st.ticker.progress == Done)
    && st.ticker.msgIdx <= LastMessage(v)
    && (s.step == OutlineReady || s.step == Editor ==> s.outline.Some?)
  }

  lemma InitInv<O>(v: Variant)
    ensures Inv(v, Init<O>())
  {
  }

  /**
   * Every event keeps the invariant; the screen only changes along an
   * `Edge`; and while the analysing screen stays, the percentage never
   * falls.
   */
  lemma DispatchKeepsInv<O>(v: Variant, st: State<O>, e: Event<O>)
    requires ValidEvent(e)
    requires Inv(v, st)
    ensures Inv(v, Dispatch(v, st, e))
    ensures Dispatch(v, st, e).session.step != st.session.step ==> Edge(st.session.step, Dispatch(v, st, e).session.step)
    ensures st.session.step == Analyzing && Dispatch(v, st, e).session.step == Analyzing ==>
              st.ticker.progress <= Dispatch(v, st, e).ticker.progress
  {
    match e
    case TimerTick(r) => TickKeepsInv(v, st, r);
    case ClickStart => StartKeepsInv(v, st);
    case GatewaySettled(outcome) => SettleKeepsInv(v, st, outcome);
    case EditKeywords(_) => EditKeepsInv(v, st, e);
    case EditCountry(_) => EditKeepsInv(v, st, e);
    case EditCompetitors(_) => EditKeepsInv(v, st, e);
    case ClickReconfigure => OutlineButtonsKeepInv(v, st, e);
    case ClickOpenEditor => OutlineButtonsKeepInv(v, st, e);
  }

  /** Editing a field keeps the invariant and neither the screen nor the animation changes. */
  lemma EditKeepsInv<O>(v: Variant, st: State<O>, e: Event<O>)
    requires Inv(v, st)
    requires e.EditKeywords? || e.EditCountry? || e.EditCompetitors?
    ensures Inv(v, Dispatch(v, st, e))
    ensures Dispatch(v, st, e).session.step == st.session.step
    ensures Dispatch(v, st, e).ticker == st.ticker
  {
  }

  /** A timer tick keeps the invariant and, while analysing, never lowers the percentage. */
  lemma TickKeepsInv<O>(v: Variant, st: State<O>, r: real)
    requires Inv(v, st)
    requires ValidIncrement(r)
    ensures Inv(v, Dispatch(v, st, TimerTick(r)))
    ensures Dispatch(v, st, TimerTick(r)).session == st.session
    ensures st.session.step == Analyzing ==> st.ticker.progress <= Dispatch(v, st, TimerTick(r)).ticker.progress
  {
    if st.session.step == Analyzing {
      var t' := TickOf(v, st.ticker, r);
      TickOfKeepsSync(v, st.ticker, r);
      TickStep(v, st, r);
      InvWithTicker(v, st, t');
    }
  }

  /** What a timer tick does on the analysing screen. */
  lemma TickStep<O>(v: Variant, st: State<O>, r: real)
    requires ValidIncrement(r)
    requires st.session.step == Analyzing
    ensures Dispatch(v, st, TimerTick(r)) == st.(ticker := TickOf(v, st.ticker, r))
  {
  }

  /** On the analysing screen, the invariant only asks of the animation that it keep its agreement. */
  lemma InvWithTicker<O>(v: Variant, st: State<O>, t: Ticker)
    requires Inv(v, st) && st.session.step == Analyzing
    requires SyncOf(v, t) && t.msgIdx <= LastMessage(v)
    ensures Inv(v, st.(ticker := t))
  {
  }

  /** The start button keeps the invariant and can only move from setup to analysing. */
  lemma StartKeepsInv<O>(v: Variant, st: State<O>)
    requires Inv(v, st)
    ensures Inv(v, Dispatch(v, st, ClickStart))
    ensures Dispatch(v, st, ClickStart).session.step != st.session.step ==>
              st.session.step == Setup && Dispatch(v, st, ClickStart).session.step == Analyzing
  {
    if st.session.step == Setup {
      StartStep(v, st);
    }
  }

  /** What the start button does on the setup screen. */
  lemma StartStep<O>(v: Variant, st: State<O>)
    requires st.session.step == Setup
    ensures !CanStart(st.session) ==> Dispatch(v, st, ClickStart) == st.(pending := None)
    ensures CanStart(st.session) ==>
              Dispatch(v, st, ClickStart) == State(st.session.(step := Analyzing), Start, Some(RequestFor(st.session)))
  {
    var s := st.session;
    var (s', request) := StartAnalysis(s);
    assert Dispatch(v, st, ClickStart) == WithSession(st, s').(pending := request);
    if CanStart(s) {
      assert s' == s.(step := Analyzing);
      assert request == Some(RequestFor(s));
      assert WithSession(st, s').(pending := request) == State(s', Start, request);
    }
  }

  /** The gateway settling keeps the invariant and moves from analysing to the outline or setup screen. */
  lemma SettleKeepsInv<O>(v: Variant, st: State<O>, outcome: Outcome<O>)
    requires Inv(v, st)
    ensures Inv(v, Dispatch(v, st, GatewaySettled(outcome)))
    ensures Dispatch(v, st, GatewaySettled(outcome)).session.step != st.session.step ==>
              Edge(st.session.step, Dispatch(v, st, GatewaySettled(outcome)).session.step)
  {
    if st.pending.Some? {
      SettleStep(v, st, outcome);
    }
  }

  /** Either button of the outline screen keeps the invariant and leaves along an edge. */
  lemma OutlineButtonsKeepInv<O>(v: Variant, st: State<O>, e: Event<O>)
    requires Inv(v, st)
    requires e.ClickReconfigure? || e.ClickOpenEditor?
    ensures Inv(v, Dispatch(v, st, e))
    ensures Dispatch(v, st, e).session.step != st.session.step ==> Edge(st.session.step, Dispatch(v, st, e).session.step)
  {
  }

  /**
   * The screen changes exactly when a usable control that moves it is
   * used: the start button with both fields filled, the gateway settling
   * a pending call, or either button of the outline screen.
   */
  lemma StepChangesIff<O>(v: Variant, st: State<O>, e: Event<O>)
    requires ValidEvent(e)
    requires Inv(v, st)
    ensures Dispatch(v, st, e).session.step != st.session.step <==>
      || (e.ClickStart? && st.session.step == Setup && CanStart(st.session))
      || (e.GatewaySettled? && st.session.step == Analyzing)
      || ((e.ClickReconfigure? || e.ClickOpenEditor?) && st.session.step == OutlineReady)
  {
    match e
    case GatewaySettled(outcome) =>
      if st.pending.Some? {
        SettleStep(v, st, outcome);
      }
    case ClickStart =>
      if st.session.step == Setup {
        StartStep(v, st);
      }
    case _ =>
  }

  /** Events applied one after the other. */
  function Run<O>(v: Variant, st: State<O>, es: seq<Event<O>>): State<O>
    requires forall i :: 0 <= i < |es| ==> ValidEvent(es[i])
    decreases |es|
  {
    if es == [] then st else Run(v, Dispatch(v, st, es[0]), es[1..])
  }

  /** The invariant survives any sequence of events. */
  lemma {:induction false} RunKeepsInv<O>(v: Variant, st: State<O>, es: seq<Event<O>>)
    requires forall i :: 0 <= i < |es| ==> ValidEvent(es[i])
    requires Inv(v, st)
    ensures Inv(v, Run(v, st, es))
    decreases |es|
  {
    if es != [] {
      DispatchKeepsInv(v, st, es[0]);
      RunKeepsInv(v, Dispatch(v, st, es[0]), es[1..]);
    }
  }

  /** Every state the page can reach from load satisfies the invariant. */
  lemma ReachableInv<O>(v: Variant, es: seq<Event<O>>)
    requires forall i :: 0 <= i < |es| ==> ValidEvent(es[i])
    ensures Inv(v, Run(v, Init<O>(), es))
  {
    InitInv<O>(v);
    RunKeepsInv(v, Init<O>(), es);
  }

  /** With the source's tick, no sequence of events from page load ever shows the fourth status message. */
  lemma FourthMessageNeverShownAsWritten<O>(es: seq<Event<O>>)
    requires forall i :: 0 <= i < |es| ==> ValidEvent(es[i])
    ensures Run(AsWritten, Init<O>(), es).ticker.msgIdx <= 2
    ensures Status(Run(AsWritten, Init<O>(), es).ticker) != Messages[3]
  {
    ReachableInv(AsWritten, es);
    EarlierMessagesDiffer(Run(AsWritten, Init<O>(), es).ticker);
  }

  /**
   * With the intended tick, in every reachable state on the analysing
   * screen, the status line reads the fourth message exactly when the
   * percentage is past 85.
   */
  lemma FourthMessageShownPastThreshold<O>(es: seq<Event<O>>)
    requires forall i :: 0 <= i < |es| ==> ValidEvent(es[i])
    requires Run(Intended, Init<O>(), es).session.step == Analyzing
    ensures Run(Intended, Init<O>(), es).ticker.msgIdx <= 3
    ensures Status(Run(Intended, Init<O>(), es).ticker) == Messages[3] <==>
      Run(Intended, Init<O>(), es).ticker.progress > Threshold3
  {
    ReachableInv(Intended, es);
    StatusFollowsProgress(Run(Intended, Init<O>(), es).ticker);
  }

  /**
   * Whichever way the pending call ends, the animation stops at exactly
   * 100 %, and a failure leaves the previous outline in place.
   */
  lemma SettlingFinishesProgress<O>(v: Variant, st: State<O>, outcome: Outcome<O>)
    requires Inv(v, st)
    requires st.session.step == Analyzing
    ensures Dispatch(v, st, GatewaySettled(outcome)).ticker.progress == Done
    ensures Dispatch(v, st, GatewaySettled(outcome)).pending == None
    ensures outcome.Success? ==> Dispatch(v, st, GatewaySettled(outcome)).session.outline == Some(outcome.outline)
    ensures outcome.Failure? ==> Dispatch(v, st, GatewaySettled(outcome)).session.outline == st.session.outline
  {
    SettleStep(v, st, outcome);
  }

  /** What the gateway settling does to a state with a pending call. */
  lemma SettleStep<O>(v: Variant, st: State<O>, outcome: Outcome<O>)
    requires st.pending.Some?
    ensures Dispatch(v, st, GatewaySettled(outcome)) == WithSession(st, Settle(st.session, outcome)).(pending := None)
  {
  }

}
