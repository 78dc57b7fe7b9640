/**
 * A day as a sequence of events: button presses, slider moves, resets,
 * voice commands and image analyses, applied one after another. The lemmas
 * here say what any such sequence does to the metrics.
 */
module Session {
  import opened Wrappers
  import opened Metrics
  import Updates

  /** One thing the user or the AI service does to the day. */
  datatype Event =
    | PressIncrementWater
    | PressDecrementWater
    | PressIncrementSleep
    | PressDecrementSleep
    | SlideEnergy(level: real)
    | Reset(confirmed: bool)
    | Voice(command: Updates.VoiceAction)
    | Image(info: Updates.NutritionData)

  /** The handler each event triggers. */
  function Step(d: Day, e: Event): Day {
    match e
    case PressIncrementWater => Updates.IncrementWater(d)
    case PressDecrementWater => Updates.DecrementWater(d)
    case PressIncrementSleep => Updates.IncrementSleep(d)
    case PressDecrementSleep => Updates.DecrementSleep(d)
    case SlideEnergy(level) => Updates.SetEnergy(d, level)
    case Reset(confirmed) => Updates.ResetDay(d, confirmed)
    case Voice(a) => Updates.ApplyVoiceAction(d, a)
    case Image(n) => Updates.AddNutrition(d, n)
  }

  /** The events applied in order, each to the result of the one before. */
  function Run(d: Day, es: seq<Event>): Day
    decreases |es|
  {
    if es == [] then d else Run(Step(d, es[0]), es[1..])
  }

  lemma {:induction false} RunAppend(d: Day, es: seq<Event>, e: Event)
    ensures Run(d, es + [e]) == Step(Run(d, es), e)
    decreases |es|
  {
    if es != [] {
      assert (es + [e])[1..] == es[1..] + [e];
      RunAppend(Step(d, es[0]), es[1..], e);
    }
  }

  /** After a confirmed reset the day is at its defaults, whatever came before. */
  lemma ResetForgetsHistory(d: Day, es: seq<Event>)
    ensures Run(d, es + [Reset(true)]) == Defaults()
  {
    RunAppend(d, es, Reset(true));
    DayExtensional(Run(d, es + [Reset(true)]), Defaults());
  }

  // ---------------------------------------------------------------------
  // Energy is an absolute setting

  /** The energy level an event sets outright, if it sets one. */
  function EnergySetting(e: Event): Option<real> {
    match e
    case SlideEnergy(level) => Some(level)
    case Reset(confirmed) => if confirmed then Some(DefaultEnergy) else None
    case _ => None
  }

  /** The energy level set by the last event that sets one. */
  function LastEnergySetting(es: seq<Event>): Option<real>
    decreases |es|
  {
    if es == [] then None
    else if EnergySetting(es[|es| - 1]).Some? then EnergySetting(es[|es| - 1])
    else LastEnergySetting(es[..|es| - 1])
  }

  lemma StepEnergy(d: Day, e: Event)
    ensures Get(Step(d, e), Energy) == EnergySetting(e).GetOr(Get(d, Energy))
  {
  }

  /** The energy level at the end of a day is the last one set, or the starting level if none was. */
  lemma {:induction false} RunEnergy(d: Day, es: seq<Event>)
    ensures Get(Run(d, es), Energy) == LastEnergySetting(es).GetOr(Get(d, Energy))
    decreases |es|
  {
    if es != [] {
      var init, e := es[..|es| - 1], es[|es| - 1];
      assert es == init + [e];
      RunAppend(d, init, e);
      RunEnergy(d, init);
      StepEnergy(Run(d, init), e);
    }
  }

  /** A level the slider can show: from 0 to 10. */
  predicate OnScale(level: real) {
    0.0 <= level <= 10.0
  }

  /** Every slider move in the events is to a level on the scale. */
  predicate SliderOnScale(es: seq<Event>) {
    forall i :: 0 <= i < |es| && es[i].SlideEnergy? ==> OnScale(es[i].level)
  }

  lemma {:induction false} LastSettingOnScale(es: seq<Event>)
    requires SliderOnScale(es)
    ensures LastEnergySetting(es).Some? ==> OnScale(LastEnergySetting(es).value)
    decreases |es|
  {
    if es != [] && EnergySetting(es[|es| - 1]).None? {
      var init := es[..|es| - 1];
      assert forall i :: 0 <= i < |init| ==> init[i] == es[i];
      LastSettingOnScale(init);
    }
  }

  /**
   * The energy setter does not clamp: energy stays on the 0-10 scale only
   * because every level the slider hands it is on the scale.
   */
  lemma EnergyStaysOnScale(d: Day, es: seq<Event>)
    requires OnScale(Get(d, Energy)) && SliderOnScale(es)
    ensures OnScale(Get(Run(d, es), Energy))
  {
    RunEnergy(d, es);
    LastSettingOnScale(es);
  }

  /** An energy level off the scale is taken as it is. */
  lemma EnergyNotClamped(d: Day)
    ensures Get(Step(d, SlideEnergy(11.0)), Energy) == 11.0
  {
  }

  // ---------------------------------------------------------------------
  // Accumulating metrics add up their deltas

  /** Event `e` changes metric `k` only by adding to it. */
  predicate Accumulates(e: Event, k: Metric) {
    && k != Energy
    && e != Reset(true)
    && !(e == PressDecrementWater && k == Water)
    && !(e == PressDecrementSleep && k == Sleep)
  }

  /** What a voice command adds to metric `k`. */
  function VoiceDelta(a: Updates.VoiceAction, k: Metric): real {
    if a.action == Updates.AddWaterTag then
      (if k == Water then Updates.OrZero(a.value) else 0.0)
    else if a.action == Updates.AddSleepTag then
      (if k == Sleep then Updates.OrZero(a.value) else 0.0)
    else if a.action == Updates.LogFoodTag then
      match k
      case Calories => Updates.OrZero(a.calories)
      case Protein => Updates.OrZero(a.protein)
      case Carbs => Updates.OrZero(a.carbs)
      case Fat => Updates.OrZero(a.fat)
      case _ => 0.0
    else 0.0
  }

  /** What an image analysis adds to metric `k`. */
  function NutritionDelta(n: Updates.NutritionData, k: Metric): real {
    match k
    case Calories => n.calories
    case Protein => n.protein
    case Carbs => n.carbs
    case Fat => n.fat
    case _ => 0.0
  }

  /** What event `e` adds to metric `k` when it accumulates. */
  function Delta(e: Event, k: Metric): real {
    match e
    case PressIncrementWater => if k == Water then Updates.WaterStep else 0.0
    case PressIncrementSleep => if k == Sleep then Updates.SleepStep else 0.0
    case Voice(a) => VoiceDelta(a, k)
    case Image(n) => NutritionDelta(n, k)
    case _ => 0.0
  }

  /** The sum of what the events add to metric `k`. */
  function TotalDelta(es: seq<Event>, k: Metric): real
    decreases |es|
  {
    if es == [] then 0.0 else Delta(es[0], k) + TotalDelta(es[1..], k)
  }

  lemma StepAccumulates(d: Day, e: Event, k: Metric)
    requires Accumulates(e, k)
    ensures Get(Step(d, e), k) == Get(d, k) + Delta(e, k)
  {
  }

  /** Over events that only add to `k`, the final value of `k` is the start plus every delta: no update is lost. */
  lemma {:induction false} RunAccumulates(d: Day, es: seq<Event>, k: Metric)
    requires forall i :: 0 <= i < |es| ==> Accumulates(es[i], k)
    ensures Get(Run(d, es), k) == Get(d, k) + TotalDelta(es, k)
    decreases |es|
  {
    if es != [] {
      StepAccumulates(d, es[0], k);
      RunAccumulates(Step(d, es[0]), es[1..], k);
    }
  }

  lemma {:induction false} TotalDeltaAppend(xs: seq<Event>, ys: seq<Event>, k: Metric)
    ensures TotalDelta(xs + ys, k) == TotalDelta(xs, k) + TotalDelta(ys, k)
    decreases |xs|
  {
    if xs != [] {
      assert (xs + ys)[1..] == xs[1..] + ys;
      TotalDeltaAppend(xs[1..], ys, k);
    } else {
      assert xs + ys == ys;
    }
  }

  /**
   * Two batches of accumulating events, such as a button press and a voice
   * command, leave `k` at the same value in either order.
   */
  lemma AccumulationOrderFree(d: Day, xs: seq<Event>, ys: seq<Event>, k: Metric)
    requires forall i :: 0 <= i < |xs| ==> Accumulates(xs[i], k)
    requires forall i :: 0 <= i < |ys| ==> Accumulates(ys[i], k)
    ensures Get(Run(d, xs + ys), k) == Get(Run(d, ys + xs), k)
  {
    RunAccumulates(d, xs + ys, k);
    RunAccumulates(d, ys + xs, k);
    TotalDeltaAppend(xs, ys, k);
    TotalDeltaAppend(ys, xs, k);
  }

  /** Two presses of the water button add 500 ml: neither is lost. */
  lemma TwoWaterPressesBothCount(d: Day)
    ensures Get(Run(d, [PressIncrementWater, PressIncrementWater]), Water) == Get(d, Water) + 500.0
  {
    RunAccumulates(d, [PressIncrementWater, PressIncrementWater], Water);
  }

  // ---------------------------------------------------------------------
  // The floor at zero for water and sleep

  /** Water and sleep are not negative. */
  predicate Floored(d: Day) {
    Get(d, Water) >= 0.0 && Get(d, Sleep) >= 0.0
  }

  /** The event is not a voice command that adds a negative amount of water or sleep. */
  predicate NoNegativeAmount(e: Event) {
    e.Voice? && e.command.action in {Updates.AddWaterTag, Updates.AddSleepTag} ==> Updates.OrZero(e.command.value) >= 0.0
  }

  lemma StepKeepsFloor(d: Day, e: Event)
    requires Floored(d) && NoNegativeAmount(e)
    ensures Floored(Step(d, e))
  {
  }

  /** Buttons, slider, reset, food and images never take water or sleep below zero. */
  lemma {:induction false} RunKeepsFloor(d: Day, es: seq<Event>)
    requires Floored(d)
    requires forall i :: 0 <= i < |es| ==> NoNegativeAmount(es[i])
    ensures Floored(Run(d, es))
    decreases |es|
  {
    if es != [] {
      StepKeepsFloor(d, es[0]);
      RunKeepsFloor(Step(d, es[0]), es[1..]);
    }
  }

  /** A voice command is not clamped: a negative amount takes water below zero. */
  lemma NegativeVoiceBreaksFloor()
    ensures !Floored(Step(Defaults(), Voice(Updates.VoiceAction(Updates.AddWaterTag, Some(-250.0), None, None, None, None, None, None))))
  {
  }
}
