/** Per-run counters every scraper keeps. */
module Metrics {
  import Json

  /** The counter attributes `increment` can add to. */
  const Counters: set<string> := {"total_found", "total_scraped", "validation_passed",
    "validation_failed", "duplicates_skipped", "examples_written"}

  /** The other public attributes of the metrics object: adding a number to a
      timestamp or to a bound method raises `TypeError`. */
  const OtherAttributes: set<string> := {"start_time", "end_time", "increment", "finish", "pass_rate",
    "duration_seconds", "summary", "to_dict", "to_json"}

  /** The special attributes `hasattr` finds on a dataclass instance under
      CPython 3.12; none of them supports adding a number. */
  const SpecialAttributes: set<string> := {"__annotations__", "__class__", "__dataclass_fields__",
    "__dataclass_params__", "__delattr__", "__dict__", "__dir__", "__doc__", "__eq__", "__format__",
    "__ge__", "__getattribute__", "__getstate__", "__gt__", "__hash__", "__init__", "__init_subclass__",
    "__le__", "__lt__", "__match_args__", "__module__", "__ne__", "__new__", "__post_init__", "__reduce__",
    "__reduce_ex__", "__repr__", "__setattr__", "__sizeof__", "__str__", "__subclasshook__", "__weakref__"}

  /** Every attribute name other than a counter: `getattr(self, metric) + count`
      raises `TypeError` for each. */
  const NonCounterAttributes: set<string> := OtherAttributes + SpecialAttributes

  /** Every special attribute starts with '_'. */
  lemma SpecialAttributesUnderscored()
    ensures forall a :: a in SpecialAttributes ==> |a| > 0 && a[0] == '_'
  {
  }

  /** No counter is a special attribute. */
  lemma CountersNotSpecial()
    ensures forall m :: m in Counters ==> m !in SpecialAttributes
  {
    assert forall m :: m in Counters ==> |m| > 0 && m[0] != '_';
    SpecialAttributesUnderscored();
  }

  /** No counter is a timestamp or a method. */
  lemma CountersNotOther()
    ensures forall m :: m in Counters ==> m !in OtherAttributes
  {
  }

  /** No counter is among the other attributes, so `increment` has exactly
      one way to end for each name. */
  lemma CountersDisjoint()
    ensures forall m :: m in Counters ==> m !in NonCounterAttributes
  {
    CountersNotOther();
    CountersNotSpecial();
  }

  /** How `increment` ended: the counter grew, the name was not an attribute,
      or the addition raised. */
  datatype IncrementOutcome = Incremented | Ignored | Raised

  /** `pass_rate()` as a function of the two validation counters: the
      percentage of validated examples that passed, 0 before any validation. */
  function PassRateOf(passed: int, failed: int): (rate: real)
    ensures passed + failed == 0 ==> rate == 0.0
    ensures passed >= 0 && failed >= 0 ==> 0.0 <= rate <= 100.0
    ensures passed >= 0 && failed >= 0 && passed + failed > 0 ==>
              rate * (passed + failed) as real == 100.0 * passed as real
  {
    var total := passed + failed;
    if total == 0 then 0.0
    else
      var share := passed as real / total as real;
      assert passed >= 0 && failed >= 0 ==> share <= 1.0 by {
        if passed >= 0 && failed >= 0 {
          assert share * total as real == passed as real;
        }
      }
      share * 100.0
  }

  /** The counters after `count` was added to the one called `name`. */
  function Bump(counts: map<string, int>, name: string, count: int): map<string, int>
    requires name in counts
  {
    counts[name := counts[name] + count]
  }

  /** `ScraperMetrics` */
  class ScraperMetrics {
    var totalFound: int
    var totalScraped: int
    var validationPassed: int
    var validationFailed: int
    var duplicatesSkipped: int
    var examplesWritten: int
    var startTime: string
    var endTime: string

    /** The value of the counter attribute called `name`. */
    function Counter(name: string): int
      requires name in Counters
      reads this
    {
      match name
      case "total_found" => totalFound
      case "total_scraped" => totalScraped
      case "validation_passed" => validationPassed
      case "validation_failed" => validationFailed
      case "duplicates_skipped" => duplicatesSkipped
      case _ => examplesWritten
    }

    /** The six counters by attribute name. */
    function Counts(): (m: map<string, int>)
      reads this
      ensures m.Keys == Counters
      ensures forall c :: c in Counters ==> m[c] == Counter(c)
    {
      map["total_found" := totalFound, "total_scraped" := totalScraped,
          "validation_passed" := validationPassed, "validation_failed" := validationFailed,
          "duplicates_skipped" := duplicatesSkipped, "examples_written" := examplesWritten]
    }

    /** A fresh run: counters at zero, not finished, started now (`clock` is
        `datetime.utcnow().isoformat()`) unless a start time is given. */
    constructor(startTime: string, clock: string)
      ensures forall c :: c in Counters ==> Counter(c) == 0
      ensures this.startTime == (if startTime == "" then clock + "Z" else startTime)
      ensures endTime == ""
    {
      totalFound := 0;
      totalScraped := 0;
      validationPassed := 0;
      validationFailed := 0;
      duplicatesSkipped := 0;
      examplesWritten := 0;
      this.startTime := if startTime == "" then clock + "Z" else startTime;
      endTime := "";
    }

    /** `increment(metric, count)`: adds `count` to a counter and leaves every
        other attribute alone; a name that is no attribute is ignored, and one
        that is a timestamp, a method or a special attribute raises. */
    method Increment(metric: string, count: int) returns (outcome: IncrementOutcome)
      modifies this
      ensures metric in Counters ==>
        outcome == Incremented && Counter(metric) == old(Counter(metric)) + count
        && (forall c :: c in Counters && c != metric ==> Counter(c) == old(Counter(c)))
        && startTime == old(startTime) && endTime == old(endTime)
      ensures metric in Counters ==> Counts() == Bump(old(Counts()), metric, count)
      ensures metric !in Counters && metric in NonCounterAttributes ==> outcome == Raised && unchanged(this)
      ensures metric !in Counters && metric !in NonCounterAttributes ==> outcome == Ignored && unchanged(this)
    {
      if metric in Counters {
        Add(metric, count);
        outcome := Incremented;
      } else if metric in NonCounterAttributes {
        outcome := Raised;
      } else {
        outcome := Ignored;
      }
    }

    /** The successful branch of `increment`: `count` added to one counter. */
    method Add(metric: string, count: int)
      requires metric in Counters
      modifies this
      ensures Counter(metric) == old(Counter(metric)) + count
      ensures forall c :: c in Counters && c != metric ==> Counter(c) == old(Counter(c))
      ensures startTime == old(startTime) && endTime == old(endTime)
      ensures Counts() == Bump(old(Counts()), metric, count)
    {
      match metric {
        case "total_found" => totalFound := totalFound + count;
        case "total_scraped" => totalScraped := totalScraped + count;
        case "validation_passed" => validationPassed := validationPassed + count;
        case "validation_failed" => validationFailed := validationFailed + count;
        case "duplicates_skipped" => duplicatesSkipped := duplicatesSkipped + count;
        case _ => examplesWritten := examplesWritten + count;
      }
    }

    /** `finish()`: stamp the end time (`clock` is `datetime.utcnow().isoformat()`). */
    method Finish(clock: string)
      modifies this
      ensures endTime == clock + "Z"
      ensures forall c :: c in Counters ==> Counter(c) == old(Counter(c))
      ensures startTime == old(startTime)
    {
      endTime := clock + "Z";
    }

    /** `pass_rate()`: depends on the two validation counters only. */
    function PassRate(): (rate: real)
      reads this
      ensures rate == PassRateOf(validationPassed, validationFailed)
    {
      PassRateOf(validationPassed, validationFailed)
    }

    /** `duration_seconds()`: 0 until the run is finished, then the difference
        of the two timestamps (`seconds` reads an ISO 8601 text as seconds). */
    function DurationSeconds(seconds: string -> real): (d: real)
      reads this
      ensures endTime == "" ==> d == 0.0
    {
      if endTime == "" then 0.0 else seconds(endTime) - seconds(startTime)
    }

    /** `to_dict()`: the eight dataclass fields. */
    function ToDict(): (d: map<string, Json.Value>)
      reads this
      ensures d.Keys == Counters + {"start_time", "end_time"}
      ensures forall c :: c in Counters ==> d[c] == Json.JNumber(Counter(c) as real)
    {
      map["total_found" := Json.JNumber(totalFound as real),
          "total_scraped" := Json.JNumber(totalScraped as real),
          "validation_passed" := Json.JNumber(validationPassed as real),
          "validation_failed" := Json.JNumber(validationFailed as real),
          "duplicates_skipped" := Json.JNumber(duplicatesSkipped as real),
          "examples_written" := Json.JNumber(examplesWritten as real),
          "start_time" := Json.JString(startTime),
          "end_time" := Json.JString(endTime)]
    }
  }
}
