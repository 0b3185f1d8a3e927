/**
 * The session state of the planner and the operations on it that change
 * which screen is shown: starting the competitor analysis, settling it
 * with the gateway's outcome, and the two buttons of the outline screen.
 */
module Workflow {
  import opened Wrappers
  import opened Text
  import opened Competitors

  /** The four screens; exactly one is shown at a time. */
  datatype Step = Setup | Analyzing | OutlineReady | Editor

  /** The arguments of the competitor-analysis call to the AI gateway. */
  datatype Request = Request(keywords: string, country: string, urls: seq<string>)

  /**
   * How the gateway call ends: it resolves with an outline or it throws.
   * The outline's structure belongs to the gateway, so it is a type
   * parameter here.
   */
  datatype Outcome<O> = Success(outline: O) | Failure

  /** The fields of the session that the screens read and write. */
  datatype Session<O> = Session(step: Step, keywords: string, country: string, competitors: string, outline: Option<O>)

  /** The target region the form starts with. */
  const DefaultCountry := "台灣"

  /** The session at page load: the setup screen, empty fields, no outline. */
  function Initial<O>(): (r: Session<O>)
    ensures r.step == Setup && r.outline == None
    ensures !CanStart(r)
  {
    Session(Setup, "", DefaultCountry, "", None)
  }

  /**
   * The screen changes the program offers, independently of how they are
   * triggered: setup to analysing, analysing to outline or back to setup,
   * outline back to setup or on to the editor. The editor offers none.
   */
  predicate Edge(a: Step, b: Step) {
    || (a == Setup && b == Analyzing)
    || (a == Analyzing && b == OutlineReady)
    || (a == Analyzing && b == Setup)
    || (a == OutlineReady && b == Setup)
    || (a == OutlineReady && b == Editor)
  }

  /** The guard of `startAnalysis`, also the `disabled` condition of its button: neither field may be empty. */
  predicate CanStart<O>(s: Session<O>)
    ensures !CanStart(s) ==> s.keywords == [] || Normalize(s.competitors) == []
  {
    NormalizeEmptyIff(s.competitors);
    s.keywords != [] && s.competitors != []
  }

  /**
   * `startAnalysis` up to the awaited gateway call: with both fields filled
   * in, show the analysing screen and issue the call with the normalised
   * competitor list; otherwise do nothing and call nothing.
   */
  function StartAnalysis<O>(s: Session<O>): (r: (Session<O>, Option<Request>))
    ensures r.1.None? <==> !CanStart(s)
    ensures r.1.None? ==> r.0 == s
    ensures r.1.Some? ==> r.0.step == Analyzing
    ensures r.1.Some? ==> r.0 == s.(step := r.0.step)
    ensures r.1.Some? ==> r.1.value.keywords == s.keywords && r.1.value.country == s.country
    // The next three follow from the last clause and the contract of `Normalize`.
    ensures r.1.Some? ==> |r.1.value.urls| <= MaxCompetitors
    ensures r.1.Some? ==> forall i :: 0 <= i < |r.1.value.urls| ==> !IsBlank(r.1.value.urls[i])
    ensures r.1.Some? ==> r.1.value.urls <= NonBlank(Split(s.competitors, '\n'))
    ensures r.1.Some? ==> r.1.value.urls == Normalize(s.competitors)
  {
    if !CanStart(s) then (s, None)
    else (s.(step := Analyzing), Some(Request(s.keywords, s.country, Normalize(s.competitors))))
  }

  /**
   * `startAnalysis` after the awaited call: a resolved outline is stored
   * and shown; a failure returns to the setup screen and leaves the outline
   * as it was.
   */
  function Settle<O>(s: Session<O>, outcome: Outcome<O>): (r: Session<O>)
    ensures outcome.Success? ==> r.step == OutlineReady && r.outline == Some(outcome.outline)
    ensures outcome.Failure? ==> r.step == Setup && r.outline == s.outline
    ensures r == s.(step := r.step, outline := r.outline)
  {
    match outcome
    case Success(o) => s.(outline := Some(o), step := OutlineReady)
    case Failure => s.(step := Setup)
  }

  /** The outline screen's button back to the setup screen. */
  function Reconfigure<O>(s: Session<O>): (r: Session<O>)
    ensures r.step == Setup && r == s.(step := r.step)
  {
    s.(step := Setup)
  }

  /** The outline screen's button on to the editor. */
  function OpenEditor<O>(s: Session<O>): (r: Session<O>)
    ensures r.step == Editor && r == s.(step := r.step)
  {
    s.(step := Editor)
  }

  /**
   * The whole of `startAnalysis` against a gateway with a given outcome:
   * a no-op without both fields; otherwise the outcome decides between the
   * outline screen with the new outline and the setup screen with the old
   * one. Nothing else in the session changes.
   */
  lemma StartAnalysisThenSettle<O>(s: Session<O>, outcome: Outcome<O>)
    ensures !CanStart(s) ==> StartAnalysis(s).0 == s && StartAnalysis(s).1 == None
    ensures CanStart(s) && outcome.Success? ==>
      Settle(StartAnalysis(s).0, outcome) == s.(step := OutlineReady, outline := Some(outcome.outline))
    ensures CanStart(s) && outcome.Failure? ==>
      Settle(StartAnalysis(s).0, outcome) == s.(step := Setup)
    ensures s.step == Setup && CanStart(s) ==> Edge(s.step, StartAnalysis(s).0.step)
    ensures Edge(Analyzing, Settle(StartAnalysis(s).0, outcome).step)
  {
  }

  /**
   * A competitor field holding only white space passes the guard, yet the
   * gateway is called with no URL at all.
   */
  lemma BlankCompetitorsStillStart<O>(s: Session<O>)
    requires s.keywords != [] && s.competitors != [] && AllSpace(s.competitors)
    ensures StartAnalysis(s).0.step == Analyzing
    ensures StartAnalysis(s).1.Some? && StartAnalysis(s).1.value.urls == []
  {
    NormalizeEmptyIff(s.competitors);
  }

}
