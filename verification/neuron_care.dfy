/**
 * The "care your neurons" store: it counts the user's "where did I put it?"
 * queries and, every `nudgeFrequency` queries, asks the user to try to remember
 * before showing the answer. Clock readings and the random message choice are
 * parameters.
 */
module NeuronCare {
  import opened Wrappers

  /** A nudge every this many queries, unless the user changes it. */
  const DefaultFrequency: int := 3

  const TwentyFourHoursMillis: int := 24 * 60 * 60 * 1000

  const NudgeMessages: seq<string> := [
    "\U{1F9E0} Care your neurons! Prima di dirtelo, prova a ricordare: dove hai visto questo oggetto l'ultima volta?",
    "\U{1F9E0} Un momento! Esercita la memoria: in quale stanza potrebbe essere?",
    "\U{1F9E0} Pensaci un attimo... La memoria è un muscolo. Dove l'hai messo di solito?",
    "\U{1F9E0} Fermati 5 secondi e prova a ricordare. Se non ti viene, chiedimelo pure!"
  ]

  const SuccessMessages: seq<string> := [
    "\U{1F389} Bravo! Hai ricordato da solo. I tuoi neuroni ringraziano!",
    "\U{1F4AA} Ottimo! La tua memoria funziona alla grande.",
    "\U{1F9E0} Perfetto! Vedi che ce la fai senza AI?"
  ]

  function Abs(x: int): nat { if x < 0 then -x else x }

  /**
   * JavaScript's `a % b` on integers: `None` stands for NaN (a zero divisor);
   * otherwise the remainder truncates toward zero, so it takes the sign of `a`.
   */
  function JsRem(a: int, b: int): (r: Option<int>)
    ensures r.None? <==> b == 0
    ensures r.Some? ==> Abs(r.value) < Abs(b)
    ensures r.Some? && a >= 0 ==> r.value >= 0
    ensures r.Some? && a < 0 ==> r.value <= 0
    ensures r.Some? ==> (a - r.value) % b == 0
  {
    if b == 0 then None
    else
      var m := Abs(b);
      if a >= 0 then
        var r := a % m;
        assert 0 <= r < m;
        assert (a - r) % b == 0 by {
          assert a - r == m * (a / m);
          RemOfMultiple(a / m, m);
          DividesIff(a - r, b);
        }
        Some(r)
      else
        var r := (-a) % m;
        assert 0 <= r < m;
        assert (a + r) % b == 0 by {
          assert a + r == m * -((-a) / m);
          RemOfMultiple(-((-a) / m), m);
          DividesIff(a + r, b);
        }
        Some(-r)
  }

  /** `a % b === 0` exactly when `b` is non-zero and divides `a`. */
  lemma JsRemZeroIff(a: int, b: int)
    ensures JsRem(a, b) == Some(0) <==> b != 0 && a % b == 0
  {
    if b != 0 {
      var m := Abs(b);
      if a >= 0 {
        DividesIff(a, b);
      } else {
        DividesIff(a, b);
        DividesIff(-a, b);
        assert (-a) % m == 0 <==> a % m == 0 by { NegRem(a, m); }
      }
    }
  }

  lemma DividesIff(a: int, b: int)
    requires b != 0
    ensures a % b == 0 <==> a % Abs(b) == 0
  {
    if b < 0 {
      if a % b == 0 {
        assert a == b * (a / b);
        assert a == Abs(b) * (-(a / b));
        RemOfMultiple(-(a / b), Abs(b));
      }
      if a % Abs(b) == 0 {
        assert a == Abs(b) * (a / Abs(b));
        assert a == b * (-(a / Abs(b)));
        RemOfMultiple(-(a / Abs(b)), b);
      }
    }
  }

  lemma RemOfMultiple(q: int, m: int)
    requires m != 0
    ensures (m * q) % m == 0
  {
    var a := m * q;
    var r := a % m;
    assert a == m * (a / m) + r;
    assert m * (q - a / m) == r;
    if q - a / m != 0 {
      assert Abs(m * (q - a / m)) >= Abs(m) by { MulAbs(m, q - a / m); }
    }
  }

  lemma MulAbs(m: int, k: int)
    requires k != 0
    ensures Abs(m * k) >= Abs(m)
  {
    if k > 0 {
      if m >= 0 { assert m * k >= m * 1; } else { assert m * k <= m * 1; }
    } else {
      if m >= 0 { assert m * k <= m * -1; } else { assert m * k >= m * -1; }
    }
  }

  lemma NegRem(a: int, m: int)
    requires m > 0
    ensures (-a) % m == 0 <==> a % m == 0
  {
    if a % m == 0 {
      assert a == m * (a / m);
      assert -a == m * (-(a / m));
      RemOfMultiple(-(a / m), m);
    }
    if (-a) % m == 0 {
      assert -a == m * ((-a) / m);
      assert a == m * (-((-a) / m));
      RemOfMultiple(-((-a) / m), m);
    }
  }

  /** The four persisted fields of the store. */
  datatype CareState = CareState(
    queriesCount: int,
    lastQueryTime: Option<int>,
    nudgeEnabled: bool,
    nudgeFrequency: int)

  const InitialState: CareState := CareState(0, None, true, DefaultFrequency)

  /** The rule `recordQuery` applies to the count it read on entry. */
  predicate ShouldNudge(s: CareState)
    ensures ShouldNudge(s) <==>
              s.nudgeEnabled && s.nudgeFrequency != 0 && (s.queriesCount + 1) % s.nudgeFrequency == 0
  {
    JsRemZeroIff(s.queriesCount + 1, s.nudgeFrequency);
    s.nudgeEnabled && JsRem(s.queriesCount + 1, s.nudgeFrequency) == Some(0)
  }

  /** The store's fields after `recordQuery` at time `now`: whatever the elapsed time, the count read on entry plus one. */
  function AfterQuery(s: CareState, now: int): (t: CareState)
    ensures t.queriesCount == s.queriesCount + 1 && t.lastQueryTime == Some(now)
    ensures t.nudgeEnabled == s.nudgeEnabled && t.nudgeFrequency == s.nudgeFrequency
  {
    s.(queriesCount := s.queriesCount + 1, lastQueryTime := Some(now))
  }

  /** Whether each of a run of queries, made at the given times, nudges. */
  function NudgesOver(s: CareState, times: seq<int>): (flags: seq<bool>)
    decreases |times|
    ensures |flags| == |times|
    ensures times != [] ==> flags[0] == ShouldNudge(s)
  {
    if times == [] then [] else [ShouldNudge(s)] + NudgesOver(AfterQuery(s, times[0]), times[1..])
  }

  /** The store's fields after a run of queries: the count grows by the run's length, the settings stay. */
  function AfterQueries(s: CareState, times: seq<int>): (t: CareState)
    decreases |times|
    ensures t.queriesCount == s.queriesCount + |times|
    ensures t.nudgeEnabled == s.nudgeEnabled && t.nudgeFrequency == s.nudgeFrequency
    ensures t.lastQueryTime == if times == [] then s.lastQueryTime else Some(times[|times| - 1])
  {
    if times == [] then s else AfterQueries(AfterQuery(s, times[0]), times[1..])
  }

  /** With nudges enabled and a positive frequency N, the j-th query of a run nudges exactly when N divides the count it reaches. */
  lemma {:induction false} NudgeSchedule(s: CareState, times: seq<int>)
    requires s.nudgeEnabled && s.nudgeFrequency > 0
    ensures forall j :: 0 <= j < |times| ==>
              (NudgesOver(s, times)[j] <==> (s.queriesCount + j + 1) % s.nudgeFrequency == 0)
    decreases |times|
  {
    if times != [] {
      var t := AfterQuery(s, times[0]);
      NudgeSchedule(t, times[1..]);
      JsRemZeroIff(s.queriesCount + 1, s.nudgeFrequency);
      forall j | 1 <= j < |times|
        ensures NudgesOver(s, times)[j] <==> (s.queriesCount + j + 1) % s.nudgeFrequency == 0
      {
        assert NudgesOver(s, times)[j] == NudgesOver(t, times[1..])[j - 1];
      }
    }
  }

  /** From a zero count, exactly every N-th query nudges; with the default settings, every third. */
  lemma EveryNthQueryNudges(s: CareState, times: seq<int>)
    requires s.nudgeEnabled && s.nudgeFrequency > 0 && s.queriesCount == 0
    ensures forall j :: 0 <= j < |times| ==> (NudgesOver(s, times)[j] <==> (j + 1) % s.nudgeFrequency == 0)
    ensures s.nudgeFrequency == DefaultFrequency ==>
              forall j :: 0 <= j < |times| ==> (NudgesOver(s, times)[j] <==> j % 3 == 2)
  {
    NudgeSchedule(s, times);
  }

  /** With nudges disabled no query of a run nudges, whatever the count or the frequency. */
  lemma {:induction false} DisabledNeverNudges(s: CareState, times: seq<int>)
    requires !s.nudgeEnabled
    ensures forall j :: 0 <= j < |times| ==> !NudgesOver(s, times)[j]
    decreases |times|
  {
    if times != [] {
      DisabledNeverNudges(AfterQuery(s, times[0]), times[1..]);
      assert forall j :: 1 <= j < |times| ==>
        NudgesOver(s, times)[j] == NudgesOver(AfterQuery(s, times[0]), times[1..])[j - 1];
    }
  }

  /** A frequency of zero never nudges: `n % 0` is NaN, never `0`. */
  lemma ZeroFrequencyNeverNudges(s: CareState)
    requires s.nudgeFrequency == 0
    ensures !ShouldNudge(s)
  {
  }

  /** `getRandomNudgeMessage` with `Math.floor(Math.random() * length)` as `pick`. */
  function NudgeMessage(pick: nat): (m: string)
    requires pick < |NudgeMessages|
    ensures m in NudgeMessages
  {
    NudgeMessages[pick]
  }

  /** `getRandomSuccessMessage` with `Math.floor(Math.random() * length)` as `pick`. */
  function SuccessMessage(pick: nat): (m: string)
    requires pick < |SuccessMessages|
    ensures m in SuccessMessages
  {
    SuccessMessages[pick]
  }

  class NeuronCareStore {
    var queriesCount: int
    var lastQueryTime: Option<int>
    var nudgeEnabled: bool
    var nudgeFrequency: int

    function State(): CareState
      reads this
    {
      CareState(queriesCount, lastQueryTime, nudgeEnabled, nudgeFrequency)
    }

    constructor ()
      ensures State() == InitialState
    {
      queriesCount := 0;
      lastQueryTime := None;
      nudgeEnabled := true;
      nudgeFrequency := DefaultFrequency;
    }

    /**
     * `recordQuery` at time `now` (milliseconds), with `pick` the random message
     * index. The fields are read once on entry; the 24-hour reset writes a zero
     * count that the final write, computed from the count read on entry, replaces.
     */
    method RecordQuery(now: int, pick: nat) returns (shouldNudge: bool, nudgeMessage: Option<string>)
      requires pick < |NudgeMessages|
      modifies this
      ensures State() == AfterQuery(old(State()), now)
      ensures queriesCount == old(queriesCount) + 1
      ensures shouldNudge == ShouldNudge(old(State()))
      ensures shouldNudge <==> old(nudgeEnabled) && old(nudgeFrequency) != 0 && (old(queriesCount) + 1) % old(nudgeFrequency) == 0
      ensures nudgeMessage.Some? <==> shouldNudge
      ensures nudgeMessage.Some? ==> nudgeMessage.value in NudgeMessages
    {
      var count, enabled, frequency, last := queriesCount, nudgeEnabled, nudgeFrequency, lastQueryTime;
      // `if (lastQueryTime && ...)`: a last query time of 0 is falsy
      if last.Some? && last.value != 0 && now - last.value > TwentyFourHoursMillis {
        queriesCount := 0;
      }
      var newCount := count + 1;
      shouldNudge := enabled && JsRem(newCount, frequency) == Some(0);
      JsRemZeroIff(newCount, frequency);
      queriesCount, lastQueryTime := newCount, Some(now);
      nudgeMessage := if shouldNudge then Some(NudgeMessage(pick)) else None;
    }

    method ResetDailyCount()
      modifies this
      ensures queriesCount == 0 && lastQueryTime == None
      ensures nudgeEnabled == old(nudgeEnabled) && nudgeFrequency == old(nudgeFrequency)
    {
      queriesCount, lastQueryTime := 0, None;
    }

    method SetNudgeEnabled(enabled: bool)
      modifies this
      ensures State() == old(State()).(nudgeEnabled := enabled)
    {
      nudgeEnabled := enabled;
    }

    method SetNudgeFrequency(frequency: int)
      modifies this
      ensures State() == old(State()).(nudgeFrequency := frequency)
    {
      nudgeFrequency := frequency;
    }
  }
}
