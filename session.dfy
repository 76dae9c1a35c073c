/**
 * The decision inside `getOrCreateSessionInfo` (background.js): a session
 * lasts while it is refreshed at least every thirty minutes; otherwise a
 * new numbered session starts. Storage is an abstract record in, record out.
 */
module Session {
  import opened Wrappers
  import Decimal

  /** Thirty minutes, in milliseconds. */
  const SessionTimeoutMs: int := 30 * 60 * 1000

  /** `session_id`, `session_start_timestamp` and `session_number` as stored; `None` is missing. */
  datatype Stored = Stored(id: Option<string>, start: Option<int>, number: Option<int>)

  /** What the function resolves with: `{session_id, session_number}`. */
  datatype SessionInfo = SessionInfo(id: Option<string>, number: Option<int>)

  /** The stored record afterwards, and the session reported. */
  datatype Transition = Transition(stored: Stored, info: SessionInfo)

  /** `!session_id || !session_start_timestamp || now - start > timeout` (0 and "" are falsy). */
  predicate Expired(st: Stored, now: int)
  {
    || st.id.None? || st.id.value == ""
    || st.start.None? || st.start.value == 0
    || now - st.start.value > SessionTimeoutMs
  }

  /** `session_number || 0`. */
  function PreviousNumber(st: Stored): int
  {
    if st.number.Some? && st.number.value != 0 then st.number.value else 0
  }

  /**
   * The stored record after a call at `now`, and what the call reports:
   * the start time always becomes now; a live session keeps its id and
   * number.
   */
  function Next(st: Stored, now: int): (t: Transition)
    ensures t.stored.start == Some(now)
    ensures t.info == SessionInfo(t.stored.id, t.stored.number)
    ensures !Expired(st, now) ==> t.stored.id == st.id && t.stored.number == st.number
    ensures Expired(st, now) ==> t.stored.number == Some(PreviousNumber(st) + 1)
  {
    if Expired(st, now) then
      var id := Some(Decimal.IntToString(now));
      var number := Some(PreviousNumber(st) + 1);
      Transition(Stored(id, Some(now), number), SessionInfo(id, number))
    else
      Transition(Stored(st.id, Some(now), st.number), SessionInfo(st.id, st.number))
  }

  /**
   * A timed-out or missing session is replaced (id from the clock, number
   * one more than before, so the number changes exactly then); a live one
   * keeps its id and number. Either way the start time becomes now and the
   * reported session is the stored one.
   */
  lemma NextStartsOrRefreshes(st: Stored, now: int)
    ensures var t := Next(st, now);
      && t.stored.start == Some(now)
      && t.info == SessionInfo(t.stored.id, t.stored.number)
      && (t.stored.number != st.number <==> Expired(st, now))
      && (Expired(st, now) ==> t.stored.id == Some(Decimal.IntToString(now))
                               && t.stored.number == Some(PreviousNumber(st) + 1))
      && (!Expired(st, now) ==> t.stored.id == st.id)
  {
    if Expired(st, now) && st.number.Some? {
      assert PreviousNumber(st) + 1 != st.number.value;
    }
  }

  /**
   * A session stays the same for as long as each call comes within thirty
   * minutes of the previous one (a clock reading of 0 excepted, since a
   * start time of 0 counts as missing).
   */
  lemma SessionSurvivesRegularUse(st: Stored, now: int, later: int)
    requires now != 0 && later - now <= SessionTimeoutMs
    ensures var first := Next(st, now);
      Next(first.stored, later).info == first.info
  {
    var first := Next(st, now);
    assert first.stored.id.Some? && first.stored.id.value != "" by {
      if Expired(st, now) {
        assert |Decimal.IntToString(now)| >= 1;
      }
    }
    assert !Expired(first.stored, later);
  }
}
