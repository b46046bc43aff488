/** Plugin configuration and its validation (internal/config/config.go). Durations are nanoseconds. */
module Config {
  import opened Prelude

  const MILLISECOND := 1_000_000
  const SECOND := 1000 * MILLISECOND
  const MINUTE := 60 * SECOND
  const HOUR := 60 * MINUTE
  const SCHEMA_VERSION := 1

  datatype Invalidity = BadVersion | PollOutOfRange | TtlTooLong | TtlTooShort | BadValue

  datatype Config = Config(schemaVersion: int, pollInterval: int, ttl: int, value: string) {
    /** How old a successful write may become before it is repeated. */
    function HeartbeatAge(): int {
      TruncDiv(ttl, 3)
    }

    /** What is sent as ttl_ms: the lifetime truncated to whole milliseconds. */
    function TtlMillis(): int {
      TruncDiv(ttl, MILLISECOND)
    }

    /** The lifetime the server really grants. */
    function EffectiveTtl(): int {
      TtlMillis() * MILLISECOND
    }

    function Validate(): Option<Invalidity> {
      if schemaVersion != SCHEMA_VERSION then Some(BadVersion)
      else if pollInterval < 500 * MILLISECOND || pollInterval > MINUTE then Some(PollOutOfRange)
      else if ttl > 24 * HOUR then Some(TtlTooLong)
      else if ttl < 3 * pollInterval then Some(TtlTooShort)
      else if value != "label" && value != "status" then Some(BadValue)
      else None
    }

    predicate Valid() {
      Validate().None?
    }
  }

  function Default(): Config {
    Config(SCHEMA_VERSION, 3 * SECOND, 90 * SECOND, "label")
  }

  /** What validation buys the timing argument: a positive lifetime is always sent, a repeat is due
      strictly before the lifetime ends, and at most one millisecond is lost to truncation. */
  lemma ValidArithmetic(c: Config)
    requires c.Valid()
    ensures c.TtlMillis() > 0
    ensures 0 < c.HeartbeatAge() < c.EffectiveTtl()
    ensures c.ttl - MILLISECOND < c.EffectiveTtl() <= c.ttl
    ensures c.HeartbeatAge() + 2 * c.pollInterval <= c.ttl
  {
  }

  /** The configurations that are accepted, with the limits in nanoseconds: polls from half a second to a minute, a
      lifetime of at least three polls and at most a day, and one of two words. */
  lemma ValidExactly(c: Config)
    ensures c.Valid()
       <==> && c.schemaVersion == 1
            && 500_000_000 <= c.pollInterval <= 60_000_000_000
            && c.pollInterval + c.pollInterval + c.pollInterval <= c.ttl <= 86_400_000_000_000
            && c.value in {"label", "status"}
  {
  }

  /** Which complaint is made: the first rule that is broken, in the order version, poll, longest lifetime, shortest
      lifetime, word. */
  lemma ComplaintExactly(c: Config)
    ensures var poll, ttl := c.pollInterval, c.ttl;
            var pollFits := 500_000_000 <= poll <= 60_000_000_000;
            && (c.Validate() == Some(BadVersion) <==> c.schemaVersion != 1)
            && (c.Validate() == Some(PollOutOfRange) <==> c.schemaVersion == 1 && !pollFits)
            && (c.Validate() == Some(TtlTooLong) <==> c.schemaVersion == 1 && pollFits && ttl > 86_400_000_000_000)
            && (c.Validate() == Some(TtlTooShort)
                <==> c.schemaVersion == 1 && pollFits && ttl <= 86_400_000_000_000 && ttl < poll + poll + poll)
            && (c.Validate() == Some(BadValue)
                <==> c.schemaVersion == 1 && pollFits && poll + poll + poll <= ttl <= 86_400_000_000_000
                     && c.value !in {"label", "status"})
  {
  }

  /** The defaults: three seconds, ninety seconds, the label. They are accepted. */
  lemma DefaultIs()
    ensures var c := Default();
            && c.Valid() && c.pollInterval == 3_000_000_000 && c.ttl == 90_000_000_000 && c.value == "label"
            && c.HeartbeatAge() == 30_000_000_000 && c.TtlMillis() == 90_000
  {
  }
}
