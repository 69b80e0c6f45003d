/**
 * components/ConversationManager.tsx: a banner shown while a chat
 * conversation is marked active in `localStorage`, with the time of the last
 * activity as a relative label and a reset control.
 */
module ConversationManager {
  import opened Js
  import opened Browser

  const ActiveKey: string := "hubspot_conversation_active"
  const LastActivityKey: string := "hubspot_last_activity"
  const MsPerMinute: int := 60000

  /** What the component reads back from storage. */
  datatype Status = Status(active: bool, lastActivity: Option<TimeValue>)

  /**
   * `checkConversationStatus`: active iff the active key holds exactly
   * "true"; a last activity iff the activity key holds a non-empty string,
   * and then it is the Date of that string's `parseInt`.
   */
  function ReadStatus(storage: map<string, string>): (st: Status)
    ensures st.active <==> ActiveKey in storage && storage[ActiveKey] == "true"
    ensures st.lastActivity.None? <==> LastActivityKey !in storage || storage[LastActivityKey] == ""
    ensures st.lastActivity.Some? ==> st.lastActivity.value == DateOf(ParseInt(storage[LastActivityKey]))
  {
    var active := ActiveKey in storage && storage[ActiveKey] == "true";
    if LastActivityKey in storage && storage[LastActivityKey] != "" then
      Status(active, Some(DateOf(ParseInt(storage[LastActivityKey]))))
    else
      Status(active, None)
  }

  /** Storage after the two `removeItem` calls of a confirmed reset. */
  function ResetStorage(storage: map<string, string>): (s: map<string, string>)
    ensures s.Keys == storage.Keys - {ActiveKey, LastActivityKey}
    ensures forall k :: k in s ==> s[k] == storage[k]
  {
    storage - {ActiveKey, LastActivityKey}
  }

  /** After a reset, a fresh read finds no active conversation and no last activity. */
  lemma ReadAfterReset(storage: map<string, string>)
    ensures ReadStatus(ResetStorage(storage)) == Status(false, None)
  {
  }

  /**
   * The stored activity format round-trips: a time in epoch milliseconds
   * written as its decimal text reads back as that time, in range of a Date.
   */
  lemma {:induction false} ReadStoredActivity(storage: map<string, string>, t: nat)
    requires t <= MaxTimeValue
    ensures ReadStatus(storage[LastActivityKey := NatToString(t)]).lastActivity == Some(Time(t))
  {
    ParseIntOfNatToString(t, "");
    assert NatToString(t) + "" == NatToString(t);
  }

  /** A stored value beyond the Date range reads back as Invalid Date. */
  lemma ReadOutOfRangeActivity(storage: map<string, string>, t: nat)
    requires t > MaxTimeValue
    ensures ReadStatus(storage[LastActivityKey := NatToString(t)]).lastActivity == Some(InvalidDate)
  {
    ParseIntOfNatToString(t, "");
    assert NatToString(t) + "" == NatToString(t);
  }

  // ---------------------------------------------------------------------------
  // relative time

  /** The relative label `formatTime` gives a Date, at the current time `now` (epoch ms). */
  function FormatTime(now: int, date: TimeValue): string
  {
    if date.InvalidDate? then "NaN hours ago"   // every comparison with NaN fails
    else
      var diffMins := (now - date.ms) / MsPerMinute;  // floor: the divisor is positive
      if diffMins < 1 then "just now"
      else if diffMins == 1 then "1 minute ago"
      else if diffMins < 60 then NatToString(diffMins) + " minutes ago"
      else
        var diffHours := diffMins / 60;
        if diffHours == 1 then "1 hour ago"
        else NatToString(diffHours) + " hours ago"
  }

  /** Whole minutes elapsed, rounded down (so a date in the future gives a negative count). */
  function ElapsedMinutes(now: int, ms: int): int
  {
    (now - ms) / MsPerMinute
  }

  lemma ElapsedMinutesIsFloor(now: int, ms: int)
    ensures var m := ElapsedMinutes(now, ms);
      m * MsPerMinute <= now - ms < (m + 1) * MsPerMinute
  {
  }

  /**
   * The buckets: under one minute (including negative differences) is
   * "just now"; one minute is singular; up to 59 minutes counts minutes;
   * from 60 on it counts whole hours, singular for one.
   */
  lemma FormatTimeBuckets(now: int, ms: int)
    ensures var m := ElapsedMinutes(now, ms);
      && (m < 1 ==> FormatTime(now, Time(ms)) == "just now")
      && (m == 1 ==> FormatTime(now, Time(ms)) == "1 minute ago")
      && (2 <= m < 60 ==> FormatTime(now, Time(ms)) == NatToString(m) + " minutes ago")
      && (60 <= m < 120 ==> FormatTime(now, Time(ms)) == "1 hour ago")
      && (m >= 120 ==> FormatTime(now, Time(ms)) == NatToString(m / 60) + " hours ago")
  {
  }

  /**
   * Reading the label back with `parseInt` recovers the count it shows:
   * the whole minutes below an hour, the whole hours from then on, and NaN
   * for "just now" and for an Invalid Date.
   */
  lemma FormatTimeReadsBack(now: int, date: TimeValue)
    ensures ParseInt(FormatTime(now, date)) ==
      if date.InvalidDate? then NaN
      else
        var m := ElapsedMinutes(now, date.ms);
        if m < 1 then NaN else if m < 60 then Num(m) else Num(m / 60)
  {
    var text := FormatTime(now, date);
    if date.InvalidDate? {
      ParseIntOfWord(text);
    } else {
      var m := ElapsedMinutes(now, date.ms);
      if m < 1 {
        ParseIntOfWord(text);
      } else if m == 1 {
        assert text == NatToString(1) + " minute ago";
        ParseIntOfNatToString(1, " minute ago");
      } else if m < 60 {
        ParseIntOfNatToString(m, " minutes ago");
      } else if m / 60 == 1 {
        assert text == NatToString(1) + " hour ago";
        ParseIntOfNatToString(1, " hour ago");
      } else {
        ParseIntOfNatToString(m / 60, " hours ago");
      }
    }
  }

  /** Text that starts with a letter has no number in front for `parseInt` to read. */
  lemma ParseIntOfWord(text: string)
    requires |text| > 0 && ('a' <= text[0] <= 'z' || 'A' <= text[0] <= 'Z')
    ensures ParseInt(text) == NaN
  {
    assert !IsJsWhitespace(text[0]);
    assert TrimStart(text) == text;
    assert text[0] != '-' && text[0] != '+' && !IsDigit(text[0]);
    assert LeadingDigits(text) == "";
  }

  /** Sample differences under a minute: none, and a date in the future. */
  lemma FormatTimeJustNowExamples(now: int)
    ensures FormatTime(now, Time(now)) == "just now"
    ensures FormatTime(now, Time(now + 1)) == "just now"
  {
    assert ElapsedMinutes(now, now + 1) == -1;
  }

  /** Sample differences in minutes: 1 and 59. */
  lemma FormatTimeMinuteExamples(now: int)
    ensures FormatTime(now, Time(now - 60000)) == "1 minute ago"
    ensures FormatTime(now, Time(now - 59 * 60000)) == "59 minutes ago"
  {
    assert ElapsedMinutes(now, now - 60000) == 1;
    assert ElapsedMinutes(now, now - 59 * 60000) == 59;
    assert NatToString(59) == "59";
  }

  /** Sample differences of an hour or more: 60 and 125 minutes. */
  lemma FormatTimeHourExamples(now: int)
    ensures FormatTime(now, Time(now - 60 * 60000)) == "1 hour ago"
    ensures FormatTime(now, Time(now - 125 * 60000)) == "2 hours ago"
  {
    assert ElapsedMinutes(now, now - 60 * 60000) == 60;
    assert ElapsedMinutes(now, now - 125 * 60000) == 125;
    assert NatToString(2) == "2";
  }

  // ---------------------------------------------------------------------------
  // the component

  /** The banner: its relative last-activity label, when a last activity is known. */
  datatype Banner = Banner(lastActivityLabel: Option<string>)

  class ConversationManagerComponent {
    var hasActiveConversation: bool
    var lastActivity: Option<TimeValue>

    constructor ()
      ensures !hasActiveConversation && lastActivity == None
    {
      hasActiveConversation := false;
      lastActivity := None;
    }

    /** The component's state as a `Status`. */
    function State(): Status
      reads this
    {
      Status(hasActiveConversation, lastActivity)
    }

    /** `checkConversationStatus`: the state becomes what storage says. */
    method CheckConversationStatus(w: Window)
      modifies this
      ensures State() == ReadStatus(w.storage)
    {
      var isActive := ActiveKey in w.storage && w.storage[ActiveKey] == "true";
      hasActiveConversation := isActive;
      if LastActivityKey in w.storage && w.storage[LastActivityKey] != "" {
        lastActivity := Some(DateOf(ParseInt(w.storage[LastActivityKey])));
      } else {
        lastActivity := None;
      }
    }

    /**
     * `handleResetConversation`, with the user's answer to the confirmation
     * as `confirmed` and whether the widget's `clear` throws as
     * `clearThrows`. Only when confirmed: clear the widget with a full reset
     * when the API is present, then remove both keys (and nothing else) and
     * clear the state. The `clear` call is not guarded, so when it throws
     * the handler ends there and storage and state stay as they were.
     */
    method HandleResetConversation(w: Window, confirmed: bool, clearThrows: bool)
      modifies this, w`storage, w`apiCalls
      ensures !confirmed ==> unchanged(this) && unchanged(w)
      ensures confirmed ==> w.apiCalls == old(w.apiCalls) + (if w.api.Api? then [Clear(true)] else [])
      ensures confirmed && w.api.Api? && clearThrows ==>
        w.storage == old(w.storage) && State() == old(State())
      ensures confirmed && !(w.api.Api? && clearThrows) ==>
        && w.storage == ResetStorage(old(w.storage))
        && State() == Status(false, None)
        && State() == ReadStatus(w.storage)
    {
      if confirmed {
        if w.api.Api? {
          w.apiCalls := w.apiCalls + [Clear(true)];
          if clearThrows {
            return;
          }
        }
        w.storage := w.storage - {ActiveKey};
        w.storage := w.storage - {LastActivityKey};
        hasActiveConversation := false;
        lastActivity := None;
        ReadAfterReset(old(w.storage));
        assert w.storage == ResetStorage(old(w.storage));
      }
    }

    /** The render guard: nothing unless active; the text only when a last activity is known. */
    function Render(now: int): (b: Option<Banner>)
      reads this
      ensures b.Some? <==> hasActiveConversation
      ensures b.Some? ==> (b.value.lastActivityLabel.Some? <==> lastActivity.Some?)
      ensures b.Some? && lastActivity.Some? ==> b.value.lastActivityLabel.value == FormatTime(now, lastActivity.value)
    {
      if !hasActiveConversation then None
      else if lastActivity.Some? then Some(Banner(Some(FormatTime(now, lastActivity.value))))
      else Some(Banner(None))
    }
  }
}
