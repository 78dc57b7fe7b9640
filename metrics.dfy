/**
 * The seven daily metrics of the dashboard, their storage keys and defaults,
 * the lazy initialisers that read them back from storage, and the
 * write-through that stores them.
 */
module Metrics {

  /** The metrics the dashboard tracks for the day. */
  datatype Metric = Water | Sleep | Energy | Calories | Protein | Carbs | Fat

  /** One value per metric: water in ml, sleep in hours, energy on the 0-10 slider, nutrition in kcal and grams. */
  datatype Day = Day(
    waterIntake: real,
    sleepHours: real,
    energyLevel: real,
    caloriesIntake: real,
    proteinIntake: real,
    carbsIntake: real,
    fatIntake: real)

  /** The value of metric `k` on day `d`. */
  function Get(d: Day, k: Metric): real {
    match k
    case Water => d.waterIntake
    case Sleep => d.sleepHours
    case Energy => d.energyLevel
    case Calories => d.caloriesIntake
    case Protein => d.proteinIntake
    case Carbs => d.carbsIntake
    case Fat => d.fatIntake
  }

  /** Day `d` with metric `k` set to `v`. */
  function With(d: Day, k: Metric, v: real): (r: Day)
    ensures Get(r, k) == v
    ensures Only(d, r, {k})
  {
    match k
    case Water => d.(waterIntake := v)
    case Sleep => d.(sleepHours := v)
    case Energy => d.(energyLevel := v)
    case Calories => d.(caloriesIntake := v)
    case Protein => d.(proteinIntake := v)
    case Carbs => d.(carbsIntake := v)
    case Fat => d.(fatIntake := v)
  }

  /** The storage key under which each metric is persisted. */
  function Key(k: Metric): string {
    match k
    case Water => "waterIntake"
    case Sleep => "sleepHours"
    case Energy => "energyLevel"
    case Calories => "caloriesIntake"
    case Protein => "proteinIntake"
    case Carbs => "carbsIntake"
    case Fat => "fatIntake"
  }

  const MetricKeys: set<string> :=
    {"waterIntake", "sleepHours", "energyLevel", "caloriesIntake", "proteinIntake", "carbsIntake", "fatIntake"}

  const DefaultEnergy: real := 5.0

  /** The value a metric starts from when nothing is stored: 5 for energy, 0 otherwise. */
  function Default(k: Metric): real {
    if k == Energy then DefaultEnergy else 0.0
  }

  /** Every metric has its own key, and every key is one of the seven. */
  lemma KeysDistinct(j: Metric, k: Metric)
    ensures Key(j) in MetricKeys
    ensures Key(j) == Key(k) <==> j == k
  {
  }

  /** Two days that agree on every metric are the same day. */
  lemma DayExtensional(a: Day, b: Day)
    requires forall k :: Get(a, k) == Get(b, k)
    ensures a == b
  {
    assert Get(a, Water) == Get(b, Water) && Get(a, Sleep) == Get(b, Sleep);
    assert Get(a, Energy) == Get(b, Energy) && Get(a, Calories) == Get(b, Calories);
    assert Get(a, Protein) == Get(b, Protein) && Get(a, Carbs) == Get(b, Carbs);
    assert Get(a, Fat) == Get(b, Fat);
  }

  /** The day every metric is at its default. */
  function Defaults(): (d: Day)
    ensures forall k :: Get(d, k) == Default(k)
  {
    Day(0.0, 0.0, DefaultEnergy, 0.0, 0.0, 0.0, 0.0)
  }

  /** One lazy initialiser: the stored value if there is one, else the default. */
  function Load(saved: map<string, real>, k: Metric): real {
    if Key(k) in saved then saved[Key(k)] else Default(k)
  }

  /** The day as the seven lazy initialisers build it at start-up from what was stored. */
  function Initial(saved: map<string, real>): (d: Day)
    ensures forall k :: Key(k) in saved ==> Get(d, k) == saved[Key(k)]
    ensures forall k :: Key(k) !in saved ==> Get(d, k) == Default(k)
  {
    Day(Load(saved, Water), Load(saved, Sleep), Load(saved, Energy), Load(saved, Calories),
        Load(saved, Protein), Load(saved, Carbs), Load(saved, Fat))
  }

  /** With nothing stored, the day starts at its defaults. */
  lemma NothingStoredGivesDefaults(saved: map<string, real>)
    requires forall k :: Key(k) !in saved
    ensures Initial(saved) == Defaults()
  {
  }

  /** Storage holds every metric of `d` under that metric's key. */
  ghost predicate Mirrors(storage: map<string, real>, d: Day) {
    forall k :: Key(k) in storage && storage[Key(k)] == Get(d, k)
  }

  /** Storage holds every metric of `d` except those whose write is still `pending`. */
  ghost predicate MirrorsExcept(storage: map<string, real>, d: Day, pending: set<Metric>) {
    forall k :: k !in pending ==> Key(k) in storage && storage[Key(k)] == Get(d, k)
  }

  /** `r` differs from `d` at most on the metrics in `changed`. */
  ghost predicate Only(d: Day, r: Day, changed: set<Metric>) {
    forall k :: k !in changed ==> Get(r, k) == Get(d, k)
  }

  const AllMetrics: set<Metric> := {Water, Sleep, Energy, Calories, Protein, Carbs, Fat}

  /** With every metric pending, nothing is required of storage. */
  lemma AllPending(storage: map<string, real>, d: Day)
    ensures MirrorsExcept(storage, d, AllMetrics)
  {
  }

  /** After some metrics change, storage still mirrors all the others. */
  lemma MirrorsUnchanged(storage: map<string, real>, d: Day, r: Day, changed: set<Metric>)
    requires Mirrors(storage, d) && Only(d, r, changed)
    ensures MirrorsExcept(storage, r, changed)
  {
  }

  /** Writing one pending metric through removes it from the pending ones and keeps every other key. */
  lemma WriteThrough(storage: map<string, real>, d: Day, pending: set<Metric>, k: Metric)
    requires MirrorsExcept(storage, d, pending)
    ensures MirrorsExcept(storage[Key(k) := Get(d, k)], d, pending - {k})
    ensures OtherKeysKept(storage, storage[Key(k) := Get(d, k)])
  {
  }

  /** Keeping the other keys is transitive. */
  lemma OtherKeysKeptTransitive(s0: map<string, real>, s1: map<string, real>, s2: map<string, real>)
    requires OtherKeysKept(s0, s1) && OtherKeysKept(s1, s2)
    ensures OtherKeysKept(s0, s2)
  {
  }

  /** Storage `s` agrees with `before` on every key that is not a metric's key. */
  ghost predicate OtherKeysKept(before: map<string, real>, s: map<string, real>) {
    forall key :: key !in MetricKeys ==> (key in s <==> key in before) && (key in s ==> s[key] == before[key])
  }

  /** Writes every metric of `d` to storage under its own key. */
  function Persist(storage: map<string, real>, d: Day): (s: map<string, real>)
    ensures Mirrors(s, d)
    ensures OtherKeysKept(storage, s)
  {
    storage[Key(Water) := d.waterIntake][Key(Sleep) := d.sleepHours][Key(Energy) := d.energyLevel]
           [Key(Calories) := d.caloriesIntake][Key(Protein) := d.proteinIntake]
           [Key(Carbs) := d.carbsIntake][Key(Fat) := d.fatIntake]
  }

  /** Reloading from storage that mirrors a day gives that day back. */
  lemma ReloadRoundTrip(storage: map<string, real>, d: Day)
    requires Mirrors(storage, d)
    ensures Initial(storage) == d
  {
  }

  /** Write-through followed by start-up reload restores exactly the day that was written. */
  lemma PersistThenLoad(storage: map<string, real>, d: Day)
    ensures Initial(Persist(storage, d)) == d
  {
  }
}
