/**
 * The dashboard component's state: seven mutable cells and the key-value
 * storage the persistence effects write them to. Each handler updates the
 * cells through their setters and every changed cell is written through to
 * its own storage key; each contract ties the new cells to the pure updater
 * in `Updates`, says that storage mirrors the cells again, and that keys
 * other than the seven are left alone.
 */
module App {
  import opened Wrappers
  import opened Metrics
  import Updates

  class Dashboard {
    var waterIntake: real
    var sleepHours: real
    var energyLevel: real
    var caloriesIntake: real
    var proteinIntake: real
    var carbsIntake: real
    var fatIntake: real
    /** The browser's local storage, as parsed numbers. */
    var storage: map<string, real>

    /** The seven cells as one value. */
    function Current(): Day
      reads this
    {
      Day(waterIntake, sleepHours, energyLevel, caloriesIntake, proteinIntake, carbsIntake, fatIntake)
    }

    /** Write-through: storage holds every cell under its key. */
    ghost predicate Valid()
      reads this
    {
      Mirrors(storage, Current())
    }

    /** Start-up: each cell is lazily read from storage or defaulted, then every cell is written back. */
    constructor (saved: map<string, real>)
      ensures Valid()
      ensures Current() == Initial(saved)
      ensures OtherKeysKept(saved, storage)
    {
      waterIntake := Load(saved, Water);
      sleepHours := Load(saved, Sleep);
      energyLevel := Load(saved, Energy);
      caloriesIntake := Load(saved, Calories);
      proteinIntake := Load(saved, Protein);
      carbsIntake := Load(saved, Carbs);
      fatIntake := Load(saved, Fat);
      storage := saved;
      new;
      SaveAll(saved);
    }

    /**
     * The persistence effect of one cell: its current value is written under
     * its key. `pending` are the cells changed and not yet written, `origin`
     * the storage before the handler began; both serve the proof only.
     */
    method Save(k: Metric, ghost pending: set<Metric>, ghost origin: map<string, real>)
      requires MirrorsExcept(storage, Current(), pending) && OtherKeysKept(origin, storage)
      modifies this`storage
      ensures storage == old(storage)[Key(k) := Get(Current(), k)]
      ensures MirrorsExcept(storage, Current(), pending - {k}) && OtherKeysKept(origin, storage)
    {
      WriteThrough(storage, Current(), pending, k);
      OtherKeysKeptTransitive(origin, storage, storage[Key(k) := Get(Current(), k)]);
      storage := storage[Key(k) := Get(Current(), k)];
    }

    /** The persistence effects of all seven cells, as after start-up or a reset. */
    method SaveAll(ghost origin: map<string, real>)
      requires OtherKeysKept(origin, storage)
      modifies this`storage
      ensures Valid() && OtherKeysKept(origin, storage)
    {
      AllPending(storage, Current());
      Save(Water, AllMetrics, origin);
      Save(Sleep, AllMetrics - {Water}, origin);
      Save(Energy, AllMetrics - {Water, Sleep}, origin);
      Save(Calories, AllMetrics - {Water, Sleep, Energy}, origin);
      Save(Protein, {Protein, Carbs, Fat}, origin);
      Save(Carbs, {Carbs, Fat}, origin);
      Save(Fat, {Fat}, origin);
    }

    /** A functional setter `prev => prev + amount` on cell `k`, followed by that cell's persistence effect. */
    method Add(k: Metric, amount: real, ghost origin: map<string, real>)
      requires Valid() && OtherKeysKept(origin, storage)
      modifies this
      ensures Valid() && OtherKeysKept(origin, storage)
      ensures Current() == With(old(Current()), k, Get(old(Current()), k) + amount)
    {
      ghost var before := Current();
      match k {
        case Water => waterIntake := waterIntake + amount;
        case Sleep => sleepHours := sleepHours + amount;
        case Energy => energyLevel := energyLevel + amount;
        case Calories => caloriesIntake := caloriesIntake + amount;
        case Protein => proteinIntake := proteinIntake + amount;
        case Carbs => carbsIntake := carbsIntake + amount;
        case Fat => fatIntake := fatIntake + amount;
      }
      MirrorsUnchanged(storage, before, Current(), {k});
      Save(k, {k}, origin);
    }

    /** One guarded step of a food log: when the field `v` is present, its value is added to cell `k`. */
    method AddIfPresent(k: Metric, v: Option<real>, ghost origin: map<string, real>)
      requires Valid() && OtherKeysKept(origin, storage)
      modifies this
      ensures Valid() && OtherKeysKept(origin, storage)
      ensures Current() == With(old(Current()), k, Updates.AddIfPresent(Get(old(Current()), k), v))
    {
      if v.Some? {
        Add(k, v.value, origin);
      }
    }

    method IncrementWater()
      requires Valid()
      modifies this
      ensures Valid() && OtherKeysKept(old(storage), storage)
      ensures Current() == Updates.IncrementWater(old(Current()))
    {
      waterIntake := waterIntake + Updates.WaterStep;
      MirrorsUnchanged(storage, old(Current()), Current(), {Water});
      Save(Water, {Water}, storage);
    }

    method DecrementWater()
      requires Valid()
      modifies this
      ensures Valid() && OtherKeysKept(old(storage), storage)
      ensures Current() == Updates.DecrementWater(old(Current()))
    {
      waterIntake := Updates.FloorAtZero(waterIntake - Updates.WaterStep);
      MirrorsUnchanged(storage, old(Current()), Current(), {Water});
      Save(Water, {Water}, storage);
    }

    method IncrementSleep()
      requires Valid()
      modifies this
      ensures Valid() && OtherKeysKept(old(storage), storage)
      ensures Current() == Updates.IncrementSleep(old(Current()))
    {
      sleepHours := sleepHours + Updates.SleepStep;
      MirrorsUnchanged(storage, old(Current()), Current(), {Sleep});
      Save(Sleep, {Sleep}, storage);
    }

    method DecrementSleep()
      requires Valid()
      modifies this
      ensures Valid() && OtherKeysKept(old(storage), storage)
      ensures Current() == Updates.DecrementSleep(old(Current()))
    {
      sleepHours := Updates.FloorAtZero(sleepHours - Updates.SleepStep);
      MirrorsUnchanged(storage, old(Current()), Current(), {Sleep});
      Save(Sleep, {Sleep}, storage);
    }

    /** The energy slider's change handler. */
    method SetEnergy(level: real)
      requires Valid()
      modifies this
      ensures Valid() && OtherKeysKept(old(storage), storage)
      ensures Current() == Updates.SetEnergy(old(Current()), level)
    {
      energyLevel := level;
      MirrorsUnchanged(storage, old(Current()), Current(), {Energy});
      Save(Energy, {Energy}, storage);
    }

    /** Reset Day; `confirmed` is the user's answer to the confirmation dialog. */
    method ResetDay(confirmed: bool)
      requires Valid()
      modifies this
      ensures Valid() && OtherKeysKept(old(storage), storage)
      ensures Current() == Updates.ResetDay(old(Current()), confirmed)
    {
      if confirmed {
        waterIntake := 0.0;
        sleepHours := 0.0;
        energyLevel := DefaultEnergy;
        caloriesIntake := 0.0;
        proteinIntake := 0.0;
        carbsIntake := 0.0;
        fatIntake := 0.0;
        SaveAll(storage);
      }
    }

    /** Applies a parsed voice command: a switch on its tag, each field guarded on its own. */
    method ApplyVoiceAction(a: Updates.VoiceAction)
      requires Valid()
      modifies this
      ensures Valid() && OtherKeysKept(old(storage), storage)
      ensures Current() == Updates.ApplyVoiceAction(old(Current()), a)
    {
      ghost var origin := storage;
      if a.action == Updates.AddWaterTag {
        if Updates.Truthy(a.value) {
          Add(Water, a.value.value, origin);
        }
      } else if a.action == Updates.AddSleepTag {
        if Updates.Truthy(a.value) {
          Add(Sleep, a.value.value, origin);
        }
      } else if a.action == Updates.LogFoodTag {
        AddIfPresent(Calories, a.calories, origin);
        AddIfPresent(Protein, a.protein, origin);
        AddIfPresent(Carbs, a.carbs, origin);
        AddIfPresent(Fat, a.fat, origin);
      }
    }

    /** The dashboard update at the end of image analysis: four functional setters. */
    method AddNutrition(n: Updates.NutritionData)
      requires Valid()
      modifies this
      ensures Valid() && OtherKeysKept(old(storage), storage)
      ensures Current() == Updates.AddNutrition(old(Current()), n)
    {
      ghost var origin := storage;
      Add(Calories, n.calories, origin);
      Add(Protein, n.protein, origin);
      Add(Carbs, n.carbs, origin);
      Add(Fat, n.fat, origin);
    }
  }
}
