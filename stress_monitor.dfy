/** The "Stress Monitoring" widget: the latest reading, its level and colour
    by fixed thresholds, the alert banner, and the metric cards. */
module StressMonitor {
  import opened Remote

  /** A stress reading; the four metrics may be null. */
  datatype StressReading = StressReading(
    stressScore: int,
    heartRate: Option<real>,
    hrv: Option<real>,
    respiratoryRate: Option<real>,
    skinTemp: Option<real>)

  /** What a metric card shows: the number, or "--" when the metric is null. */
  datatype MetricText = Dashes | Number(value: real)

  /** This widget only reads; it never inserts or patches. */
  type StressRequest = Request<(), ()>

  /** The reading shown before any fetch completes. */
  const DefaultReading := StressReading(78, Some(99.0), Some(54.0), Some(19.0), Some(97.6))

  /** The level label: "High" from 70 up, "Medium" from 40 up to 69, "Low" below 40. */
  function Level(score: int): (level: string)
    ensures level == "High" <==> score >= 70
    ensures level == "Medium" <==> 40 <= score < 70
    ensures level == "Low" <==> score < 40
  {
    if score >= 70 then "High" else if score >= 40 then "Medium" else "Low"
  }

  /** The colour class, by the same thresholds as the level. */
  function Color(score: int): (color: string)
    ensures color == "stress-high" <==> score >= 70
    ensures color == "stress-medium" <==> 40 <= score < 70
    ensures color == "stress-low" <==> score < 40
  {
    if score >= 70 then "stress-high" else if score >= 40 then "stress-medium" else "stress-low"
  }

  /** The ring class, chosen by comparing the colour class. */
  function RingClass(color: string): (ring: string)
    ensures ring == "stress-ring-high" <==> color == "stress-high"
    ensures ring == "stress-ring-medium" <==> color == "stress-medium"
    ensures ring == "stress-ring-low" <==> color != "stress-high" && color != "stress-medium"
  {
    if color == "stress-high" then "stress-ring-high"
    else if color == "stress-medium" then "stress-ring-medium"
    else "stress-ring-low"
  }

  /** Level, colour and ring always tell the same story. */
  lemma LevelColorRingAgree(score: int)
    ensures Level(score) == "High" <==> Color(score) == "stress-high"
    ensures Level(score) == "Medium" <==> Color(score) == "stress-medium"
    ensures Level(score) == "Low" <==> Color(score) == "stress-low"
    ensures Level(score) == "High" <==> RingClass(Color(score)) == "stress-ring-high"
    ensures Level(score) == "Medium" <==> RingClass(Color(score)) == "stress-ring-medium"
    ensures Level(score) == "Low" <==> RingClass(Color(score)) == "stress-ring-low"
  {
  }

  /** The boundaries of the thresholds. */
  lemma LevelBoundaries()
    ensures Level(69) == "Medium" && Level(70) == "High"
    ensures Level(39) == "Low" && Level(40) == "Medium"
  {
  }

  /** The "Alert sent to trusted contacts!" banner: shown exactly when the
      level is "High". */
  function AlertShown(reading: StressReading): (shown: bool)
    ensures shown <==> reading.stressScore >= 70
    ensures shown <==> Level(reading.stressScore) == "High"
  {
    reading.stressScore >= 70
  }

  /** The default reading is a high one, so the banner shows until a fetch
      brings a calmer reading. */
  lemma DefaultReadingIsHigh()
    ensures Level(DefaultReading.stressScore) == "High"
    ensures AlertShown(DefaultReading)
  {
  }

  /** A null metric shows as "--"; any other value, zero included, shows as a number
      (the fallback tests for null, not for falsiness). */
  function ShowMetric(metric: Option<real>): (text: MetricText)
    ensures text == Dashes <==> metric.None?
    ensures metric.Some? ==> text == Number(metric.value)
  {
    match metric
    case None => Dashes
    case Some(v) => Number(v)
  }

  function FetchRequest(user: UserId): StressRequest
  {
    Select("stress_readings", UserIs(user), NewestFirst("recorded_at"), Some(1), true)
  }

  /** The widget's state: the signed-in user and the reading on display. */
  class Widget {
    const user: Option<UserId>
    var reading: StressReading

    constructor (user: Option<UserId>)
      ensures this.user == user && reading == DefaultReading
    {
      this.user := user;
      reading := DefaultReading;
    }

    /** The fetch effect: with a user, ask for the single newest reading and
        show it if one comes back; otherwise keep the reading on display. */
    method FetchLatest(data: Option<StressReading>) returns (sent: Option<StressRequest>)
      modifies this
      ensures sent == if user.Some? then Some(FetchRequest(user.value)) else None
      ensures reading == if user.Some? && data.Some? then data.value else old(reading)
    {
      sent := None;
      if user.Some? {
        sent := Some(FetchRequest(user.value));
        if data.Some? {
          reading := data.value;
        }
      }
    }
  }
}
