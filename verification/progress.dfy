/**
 * The progress animation shown while the competitor analysis is pending.
 * Every 500 ms the percentage grows by a random amount below 2, is held at
 * 98 until the analysis settles, and the status line moves through four
 * messages as the percentage passes 25, 55 and 85.
 *
 * The timer and `Math.random` are not modelled: one timer tick is one call
 * of `Tick` with the random increment passed in.
 */
module Progress {

  /** The status lines, in the order they are meant to appear. */
  const Messages: seq<string> := ["正在掃描市場...", "分析競爭對手...", "提取戰略關鍵點...", "構建內容大綱..."]

  /** Progress is held here until the analysis settles. */
  const Cap: real := 98.0

  /** The percentage shown once the analysing screen is left. */
  const Done: real := 100.0

  /** The percentages past which the second, third and fourth messages are due. */
  const Threshold1: real := 25.0
  const Threshold2: real := 55.0
  const Threshold3: real := 85.0

  /** The animation's state: the shown percentage and the index of the shown status message. */
  datatype Ticker = Ticker(progress: real, msgIdx: nat)

  /** Entering the analysing screen: 0 % and the first message. */
  const Start := Ticker(0.0, 0)

  /** `Math.random() * 2`. */
  predicate ValidIncrement(r: real) {
    0.0 <= r < 2.0
  }

  /** The status message a percentage calls for: one more for each threshold passed. */
  function Phase(p: real): nat {
    if p > Threshold3 then 3 else if p > Threshold2 then 2 else if p > Threshold1 then 1 else 0
  }

  /** The text of the status line. */
  function Status(t: Ticker): string
    requires t.msgIdx < |Messages|
  {
    Messages[t.msgIdx]
  }

  /**
   * The three message checks of one tick, run in order against the
   * uncapped new percentage. The third check fires when the index equals
   * `lastGuard`; the source passes 3 there (App.tsx line 59), where 2 is
   * meant.
   */
  function AdvanceMessage(idx: nat, next: real, lastGuard: nat): (r: nat)
    ensures idx <= 3 ==> idx <= r <= 3
    ensures r != idx ==> Phase(next) >= r
    ensures idx <= 2 && lastGuard != 2 ==> r <= 2
    ensures idx == 2 && next > Threshold3 ==> (r == 3 <==> lastGuard == 2)
  {
    var i1 := if next > Threshold1 && idx == 0 then 1 else idx;
    var i2 := if next > Threshold2 && i1 == 1 then 2 else i1;
    if next > Threshold3 && i2 == lastGuard then 3 else i2
  }

  /** The percentage after adding the increment, held at the cap. */
  function Capped(next: real): real {
    if next > Cap then Cap else next
  }

  /** One tick as the source writes it, with the third message check testing index 3. */
  function TickAsWritten(t: Ticker, r: real): (t': Ticker)
    requires ValidIncrement(r)
    ensures t'.progress <= Cap
    ensures t'.progress <= t.progress + r
    ensures t'.progress == t.progress + r || t'.progress == Cap
    ensures t.progress <= Cap ==> t.progress <= t'.progress
    ensures t.msgIdx <= t'.msgIdx
    ensures t.msgIdx <= 2 ==> t'.msgIdx <= 2
  {
    var next := t.progress + r;
    Ticker(Capped(next), AdvanceMessage(t.msgIdx, next, 3))
  }

  /** One tick with the third message check testing index 2, as intended. */
  function Tick(t: Ticker, r: real): (t': Ticker)
    requires ValidIncrement(r)
    ensures t'.progress <= Cap
    ensures t'.progress <= t.progress + r
    ensures t'.progress == t.progress + r || t'.progress == Cap
    ensures t.progress <= Cap ==> t.progress <= t'.progress
    ensures t.msgIdx <= t'.msgIdx
    ensures t.msgIdx <= 3 ==> t'.msgIdx <= 3
  {
    var next := t.progress + r;
    Ticker(Capped(next), AdvanceMessage(t.msgIdx, next, 2))
  }

  /** Which third message check a tick uses: the source's (index 3) or the intended one (index 2). */
  datatype Variant = AsWritten | Intended

  /** One tick of the given variant. */
  function TickOf(v: Variant, t: Ticker, r: real): Ticker
    requires ValidIncrement(r)
  {
    match v
    case AsWritten => TickAsWritten(t, r)
    case Intended => Tick(t, r)
  }

  /**
   * The effect that runs whenever the screen changes: entering the
   * analysing screen restarts the animation, any other screen shows 100 %.
   * The message index is a variable local to one run of the effect, so
   * leaving the screen keeps the last message as it was.
   */
  function OnScreenChange(t: Ticker, analyzing: bool): (t': Ticker)
    ensures analyzing ==> t'.progress == 0.0 && t'.msgIdx == 0
    ensures !analyzing ==> t'.progress == Done && t'.msgIdx == t.msgIdx
  {
    if analyzing then Start else t.(progress := Done)
  }

  /** Between 0 and the cap, and showing the message its percentage calls for. */
  predicate InSync(t: Ticker) {
    0.0 <= t.progress <= Cap && t.msgIdx == Phase(t.progress)
  }

  /** What the source really keeps: the message shown stops at the third one. */
  predicate InSyncAsWritten(t: Ticker) {
    0.0 <= t.progress <= Cap && t.msgIdx == if Phase(t.progress) < 2 then Phase(t.progress) else 2
  }

  /** A tick never skips a threshold: an increment below 2 cannot cross two thresholds 30 points apart. */
  lemma TickKeepsSync(t: Ticker, r: real)
    requires ValidIncrement(r)
    requires InSync(t)
    ensures InSync(Tick(t, r))
  {
  }

  /** The source's tick keeps the message in step with the percentage, but only up to the third message. */
  lemma TickAsWrittenKeepsCappedSync(t: Ticker, r: real)
    requires ValidIncrement(r)
    requires InSyncAsWritten(t)
    ensures InSyncAsWritten(TickAsWritten(t, r))
  {
  }

  /** The message-percentage agreement each variant keeps while analysing. */
  predicate SyncOf(v: Variant, t: Ticker) {
    match v
    case AsWritten => InSyncAsWritten(t)
    case Intended => InSync(t)
  }

  /** The highest message index a variant ever shows. */
  function LastMessage(v: Variant): nat {
    match v
    case AsWritten => 2
    case Intended => 3
  }

  /** Either variant's tick keeps its own agreement, never lowers the percentage, and stays within its messages. */
  lemma TickOfKeepsSync(v: Variant, t: Ticker, r: real)
    requires ValidIncrement(r)
    requires SyncOf(v, t)
    ensures SyncOf(v, TickOf(v, t, r))
    ensures t.progress <= TickOf(v, t, r).progress
    ensures TickOf(v, t, r).msgIdx <= LastMessage(v)
  {
    match v
    case AsWritten => TickAsWrittenKeepsCappedSync(t, r);
    case Intended => TickKeepsSync(t, r);
  }

  /** With the intended tick, the status line reads the fourth message exactly once the percentage is past 85. */
  lemma StatusFollowsProgress(t: Ticker)
    requires InSync(t)
    ensures Status(t) == Messages[3] <==> t.progress > Threshold3
  {
    assert Messages[0][0] != Messages[3][0] && Messages[1][0] != Messages[3][0] && Messages[2][0] != Messages[3][0];
  }

  /** With the source's tick, the status line never reads the fourth message, whatever the percentage. */
  lemma StatusNeverFourthAsWritten(t: Ticker)
    requires InSyncAsWritten(t)
    ensures Status(t) != Messages[3]
  {
    EarlierMessagesDiffer(t);
  }

  /** The first three status lines differ from the fourth. */
  lemma EarlierMessagesDiffer(t: Ticker)
    requires t.msgIdx <= 2
    ensures Status(t) != Messages[3]
  {
    assert Messages[0][0] != Messages[3][0] && Messages[1][0] != Messages[3][0] && Messages[2][0] != Messages[3][0];
  }

  /** Ticks applied one after the other. */
  function Run(t: Ticker, rs: seq<real>): Ticker
    requires forall i :: 0 <= i < |rs| ==> ValidIncrement(rs[i])
    decreases |rs|
  {
    if rs == [] then t else Run(Tick(t, rs[0]), rs[1..])
  }

  function RunAsWritten(t: Ticker, rs: seq<real>): Ticker
    requires forall i :: 0 <= i < |rs| ==> ValidIncrement(rs[i])
    decreases |rs|
  {
    if rs == [] then t else RunAsWritten(TickAsWritten(t, rs[0]), rs[1..])
  }

  /**
   * Over any run of ticks the percentage never falls, never passes the
   * cap, and the status line always matches the percentage.
   */
  lemma {:induction false} RunMonotoneAndSynced(t: Ticker, rs: seq<real>)
    requires forall i :: 0 <= i < |rs| ==> ValidIncrement(rs[i])
    requires InSync(t)
    ensures InSync(Run(t, rs))
    ensures t.progress <= Run(t, rs).progress <= Cap
    decreases |rs|
  {
    if rs != [] {
      TickKeepsSync(t, rs[0]);
      RunMonotoneAndSynced(Tick(t, rs[0]), rs[1..]);
    }
  }

  /** With the source's check, no run of ticks from the start ever reaches the fourth message. */
  lemma {:induction false} FourthMessageUnreachableAsWritten(t: Ticker, rs: seq<real>)
    requires forall i :: 0 <= i < |rs| ==> ValidIncrement(rs[i])
    requires t.msgIdx <= 2
    ensures RunAsWritten(t, rs).msgIdx <= 2
    decreases |rs|
  {
    if rs != [] {
      FourthMessageUnreachableAsWritten(TickAsWritten(t, rs[0]), rs[1..]);
    }
  }

  /**
   * The defect on one input: at 85 % showing the third message, a tick of
   * 1 takes the percentage to 86, past the last threshold, yet the source
   * keeps the third message while the intended tick shows the fourth.
   */
  lemma LastThresholdIgnoredAsWritten()
    ensures InSync(Ticker(85.0, 2))
    ensures TickAsWritten(Ticker(85.0, 2), 1.0) == Ticker(86.0, 2)
    ensures !InSync(TickAsWritten(Ticker(85.0, 2), 1.0))
    ensures Tick(Ticker(85.0, 2), 1.0) == Ticker(86.0, 3)
  {
  }

  /**
   * With the intended check the fourth message is reached: once the
   * increments carry the percentage past the last threshold, the status
   * line shows the fourth message.
   */
  lemma {:induction false} FourthMessageReached(t: Ticker, rs: seq<real>)
    requires forall i :: 0 <= i < |rs| ==> ValidIncrement(rs[i])
    requires InSync(t)
    requires t.progress + Sum(rs) > Threshold3
    ensures Run(t, rs).msgIdx == 3
    decreases |rs|
  {
    if rs != [] {
      TickKeepsSync(t, rs[0]);
      var t1 := Tick(t, rs[0]);
      if t1.progress == Cap {
        RunMonotoneAndSynced(t1, rs[1..]);
      } else {
        SumNonNegative(rs[1..]);
        FourthMessageReached(t1, rs[1..]);
      }
    }
  }

  /** The total of the increments of a run. */
  function Sum(rs: seq<real>): real {
    if rs == [] then 0.0 else rs[0] + Sum(rs[1..])
  }

  lemma {:induction false} SumNonNegative(rs: seq<real>)
    requires forall i :: 0 <= i < |rs| ==> ValidIncrement(rs[i])
    ensures Sum(rs) >= 0.0
  {
    if rs != [] {
      SumNonNegative(rs[1..]);
    }
  }

}
