/**
 * The state updaters of the dashboard as pure functions on a `Day`: the
 * manual steps, the energy slider, the reset, and the application of an
 * already-parsed voice command or image-analysis result.
 */
module Updates {
  import opened Wrappers
  import opened Metrics

  /** One manual press of the water buttons, in ml. */
  const WaterStep: real := 250.0
  /** One manual press of the sleep buttons, in hours. */
  const SleepStep: real := 0.5

  const AddWaterTag: string := "add_water"
  const AddSleepTag: string := "add_sleep"
  const LogFoodTag: string := "log_food"

  /** The maximum of 0 and `x`. */
  function FloorAtZero(x: real): real {
    if 0.0 < x then x else 0.0
  }

  function IncrementWater(d: Day): (r: Day)
    ensures Get(r, Water) == Get(d, Water) + WaterStep
    ensures Only(d, r, {Water})
  {
    d.(waterIntake := d.waterIntake + WaterStep)
  }

  function DecrementWater(d: Day): (r: Day)
    ensures Get(r, Water) >= 0.0
    ensures Get(d, Water) >= WaterStep ==> Get(r, Water) == Get(d, Water) - WaterStep
    ensures Get(d, Water) <= WaterStep ==> Get(r, Water) == 0.0
    ensures Only(d, r, {Water})
  {
    d.(waterIntake := FloorAtZero(d.waterIntake - WaterStep))
  }

  function IncrementSleep(d: Day): (r: Day)
    ensures Get(r, Sleep) == Get(d, Sleep) + SleepStep
    ensures Only(d, r, {Sleep})
  {
    d.(sleepHours := d.sleepHours + SleepStep)
  }

  function DecrementSleep(d: Day): (r: Day)
    ensures Get(r, Sleep) >= 0.0
    ensures Get(d, Sleep) >= SleepStep ==> Get(r, Sleep) == Get(d, Sleep) - SleepStep
    ensures Get(d, Sleep) <= SleepStep ==> Get(r, Sleep) == 0.0
    ensures Only(d, r, {Sleep})
  {
    d.(sleepHours := FloorAtZero(d.sleepHours - SleepStep))
  }

  /** The energy slider: an absolute overwrite, unclamped. */
  function SetEnergy(d: Day, level: real): (r: Day)
    ensures Get(r, Energy) == level
    ensures Only(d, r, {Energy})
  {
    d.(energyLevel := level)
  }

  /** Reset Day, given the user's answer to the confirmation dialog. */
  function ResetDay(d: Day, confirmed: bool): (r: Day)
    ensures confirmed ==> forall k :: Get(r, k) == Default(k)
    ensures !confirmed ==> r == d
  {
    if confirmed then Day(0.0, 0.0, DefaultEnergy, 0.0, 0.0, 0.0, 0.0) else d
  }

  /** A voice command as the AI service's JSON parses: a free-form tag and optional fields. */
  datatype VoiceAction = VoiceAction(
    action: string,
    value: Option<real>,
    unit: Option<string>,
    calories: Option<real>,
    protein: Option<real>,
    carbs: Option<real>,
    fat: Option<real>,
    food_name: Option<string>)

  /** The result of image analysis; every field is present. */
  datatype NutritionData = NutritionData(food_name: string, calories: real, protein: real, carbs: real, fat: real)

  /** A number field that JavaScript treats as true: present and not zero. */
  predicate Truthy(v: Option<real>) {
    v.Some? && v.value != 0.0
  }

  /** The amount a field contributes when added: its value, or nothing when absent. */
  function OrZero(v: Option<real>): real {
    v.GetOr(0.0)
  }

  /** Adds a field's value to `prev` when the field is present. */
  function AddIfPresent(prev: real, v: Option<real>): real {
    if v.Some? then prev + v.value else prev
  }

  function ApplyVoiceAction(d: Day, a: VoiceAction): (r: Day)
    ensures a.action == AddWaterTag ==>
              Get(r, Water) == Get(d, Water) + OrZero(a.value) && Only(d, r, {Water})
    ensures a.action == AddSleepTag ==>
              Get(r, Sleep) == Get(d, Sleep) + OrZero(a.value) && Only(d, r, {Sleep})
    ensures (a.action == AddWaterTag || a.action == AddSleepTag) && !Truthy(a.value) ==> r == d
    ensures a.action == LogFoodTag ==>
              && Get(r, Calories) == Get(d, Calories) + OrZero(a.calories)
              && Get(r, Protein) == Get(d, Protein) + OrZero(a.protein)
              && Get(r, Carbs) == Get(d, Carbs) + OrZero(a.carbs)
              && Get(r, Fat) == Get(d, Fat) + OrZero(a.fat)
              && Only(d, r, {Calories, Protein, Carbs, Fat})
    ensures a.action !in {AddWaterTag, AddSleepTag, LogFoodTag} ==> r == d
  {
    if a.action == AddWaterTag then
      if Truthy(a.value) then d.(waterIntake := d.waterIntake + a.value.value) else d
    else if a.action == AddSleepTag then
      if Truthy(a.value) then d.(sleepHours := d.sleepHours + a.value.value) else d
    else if a.action == LogFoodTag then
      d.(caloriesIntake := AddIfPresent(d.caloriesIntake, a.calories),
         proteinIntake := AddIfPresent(d.proteinIntake, a.protein),
         carbsIntake := AddIfPresent(d.carbsIntake, a.carbs),
         fatIntake := AddIfPresent(d.fatIntake, a.fat))
    else
      d
  }

  /** The nutrition-update block of image analysis. */
  function AddNutrition(d: Day, n: NutritionData): (r: Day)
    ensures Get(r, Calories) == Get(d, Calories) + n.calories
    ensures Get(r, Protein) == Get(d, Protein) + n.protein
    ensures Get(r, Carbs) == Get(d, Carbs) + n.carbs
    ensures Get(r, Fat) == Get(d, Fat) + n.fat
    ensures Only(d, r, {Calories, Protein, Carbs, Fat})
  {
    d.(caloriesIntake := d.caloriesIntake + n.calories, proteinIntake := d.proteinIntake + n.protein,
       carbsIntake := d.carbsIntake + n.carbs, fatIntake := d.fatIntake + n.fat)
  }

  /** The voice command that logs the same food with all four amounts present. */
  function AsFoodLog(n: NutritionData): (a: VoiceAction)
    ensures a.action == LogFoodTag
    ensures a.calories == Some(n.calories) && a.protein == Some(n.protein)
    ensures a.carbs == Some(n.carbs) && a.fat == Some(n.fat)
  {
    VoiceAction(LogFoodTag, None, None, Some(n.calories), Some(n.protein), Some(n.carbs), Some(n.fat), Some(n.food_name))
  }

  /** Image analysis updates the day exactly as a spoken food log carrying the same amounts. */
  lemma ImageIsFullFoodLog(d: Day, n: NutritionData)
    ensures AddNutrition(d, n) == ApplyVoiceAction(d, AsFoodLog(n))
  {
  }

  /** The food name and the unit are never stored: they do not affect the result. */
  lemma VoiceIgnoresNameAndUnit(d: Day, a: VoiceAction, name: Option<string>, unit: Option<string>)
    ensures ApplyVoiceAction(d, a.(food_name := name, unit := unit)) == ApplyVoiceAction(d, a)
  {
  }

  /** The slider does not accumulate: only the last setting counts. */
  lemma SliderOverwrites(d: Day, first: real, second: real)
    ensures SetEnergy(SetEnergy(d, first), second) == SetEnergy(d, second)
  {
  }

  /** A decrement undoes an increment whenever the amount of water was not negative. */
  lemma DecrementUndoesIncrementWater(d: Day)
    requires Get(d, Water) >= 0.0
    ensures DecrementWater(IncrementWater(d)) == d
  {
  }

  /** A decrement undoes an increment whenever the hours of sleep were not negative. */
  lemma DecrementUndoesIncrementSleep(d: Day)
    requires Get(d, Sleep) >= 0.0
    ensures DecrementSleep(IncrementSleep(d)) == d
  {
  }

  /** With no water, decrementing water leaves the day unchanged. */
  lemma DecrementWaterAtZeroStays(d: Day)
    requires Get(d, Water) == 0.0
    ensures DecrementWater(d) == d
  {
  }

  /** With no sleep, decrementing sleep leaves the day unchanged. */
  lemma DecrementSleepAtZeroStays(d: Day)
    requires Get(d, Sleep) == 0.0
    ensures DecrementSleep(d) == d
  {
  }

  /** Voice commands apply no floor: a negative amount of water is added as it is. */
  lemma VoiceAddsNegativeWater(d: Day, v: real)
    requires v < 0.0
    ensures Get(ApplyVoiceAction(d, VoiceAction(AddWaterTag, Some(v), None, None, None, None, None, None)), Water)
            == Get(d, Water) + v
    ensures Get(d, Water) < -v ==>
              Get(ApplyVoiceAction(d, VoiceAction(AddWaterTag, Some(v), None, None, None, None, None, None)), Water) < 0.0
  {
  }
}
