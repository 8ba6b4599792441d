/** The versionTime of a new entry (`compute_version_time`, swiyu-didtool/src/cmd/did/rotate.rs). */
module VersionTime {
  import opened Basics

  /** Instants are nanoseconds since the epoch; printing takes whole seconds (RFC 3339, UTC). */
  datatype TimeText = TimeText(parse: string -> Option<int>, print_: int -> string)

  const NANOS := 1_000_000_000

  // 0000-01-01T00:00:00Z and 9999-12-31T23:59:59Z, the range of RFC 3339.
  const MIN_SECOND := -62_167_219_200
  const MAX_SECOND := 253_402_300_799

  ghost predicate LawfulTime(tt: TimeText) {
    forall s | MIN_SECOND <= s <= MAX_SECOND :: tt.parse(tt.print_(s)) == Some(s * NANOS) && '{' !in tt.print_(s)
  }

  /** Backdated by five seconds. */
  function Backdated(now: int): int {
    now - 5 * NANOS
  }

  function Candidate(tt: TimeText, prev: string, now: int): int {
    match tt.parse(prev)
    case Some(p) => if p + NANOS > Backdated(now) then p + NANOS else Backdated(now)
    case None => Backdated(now)
  }

  /** Sub-second digits are cut off, so the printed second is the floor. */
  function ComputeVersionTime(tt: TimeText, prev: string, now: int): string {
    tt.print_(Candidate(tt, prev, now) / NANOS)
  }

  /** The time of a new entry is strictly later than its predecessor's, sub-second digits included. */
  lemma StrictlyLater(tt: TimeText, prev: string, now: int)
    requires LawfulTime(tt) && tt.parse(prev).Some?
    requires MIN_SECOND <= Candidate(tt, prev, now) / NANOS <= MAX_SECOND
    ensures tt.parse(ComputeVersionTime(tt, prev, now)).Some?
    ensures tt.parse(ComputeVersionTime(tt, prev, now)).value > tt.parse(prev).value
  {
    var p := tt.parse(prev).value;
    var s := Candidate(tt, prev, now) / NANOS;
    assert s * NANOS + NANOS > Candidate(tt, prev, now) >= p + NANOS;
  }

  /** The moment before rounding: five seconds ago, but at least a second after a readable predecessor. */
  predicate Earliest(tt: TimeText, prev: string, now: int, candidate: int) {
    match tt.parse(prev)
    case None => candidate == now - 5_000_000_000
    case Some(p) =>
      && candidate >= now - 5_000_000_000 && candidate >= p + 1_000_000_000
      && (candidate == now - 5_000_000_000 || candidate == p + 1_000_000_000)
  }

  /** The printed time is the last whole second up to that moment. */
  lemma TimeOfEntry(tt: TimeText, prev: string, now: int) returns (candidate: int)
    requires LawfulTime(tt)
    requires MIN_SECOND <= Candidate(tt, prev, now) / NANOS <= MAX_SECOND
    ensures Earliest(tt, prev, now, candidate)
    ensures var t := tt.parse(ComputeVersionTime(tt, prev, now));
            t.Some? && t.value % 1_000_000_000 == 0 && t.value <= candidate < t.value + 1_000_000_000
  {
    candidate := Candidate(tt, prev, now);
    var s := candidate / NANOS;
    assert s * NANOS <= candidate < s * NANOS + NANOS;
  }
}
