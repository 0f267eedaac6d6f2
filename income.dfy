/** The session tracker of the income page: a list of poker sessions,
    newest first, added through a validated form and deleted behind a
    confirmation, with totals and an hourly rate derived from it. */
module IncomeTracker {
  import opened Wrappers
  import opened Text

  /** A logged session. `id` comes from the clock and `date` is the ISO day
      of submission; both are supplied by the caller. */
  datatype Session = Session(id: string, date: string, hours: real, profit: real, notes: Option<string>)

  // ---------------------------------------------------------------------
  // Derived statistics (IncomeTracker.tsx:49-52)

  /** `sessions.length`. */
  function TotalSessions(ss: seq<Session>): nat
  {
    |ss|
  }

  /** `sessions.reduce((sum, s) => sum + s.hours, 0)`, folded from the left. */
  function TotalHours(ss: seq<Session>): real
  {
    if ss == [] then 0.0 else TotalHours(ss[..|ss| - 1]) + ss[|ss| - 1].hours
  }

  /** `sessions.reduce((sum, s) => sum + s.profit, 0)`, folded from the left. */
  function TotalProfit(ss: seq<Session>): real
  {
    if ss == [] then 0.0 else TotalProfit(ss[..|ss| - 1]) + ss[|ss| - 1].profit
  }

  /** The hourly rate: 0 when no hours are logged, otherwise the rate that
      turns the logged hours into the logged profit. */
  function HourlyRate(ss: seq<Session>): (r: real)
    ensures TotalHours(ss) <= 0.0 ==> r == 0.0
    ensures TotalHours(ss) > 0.0 ==> r * TotalHours(ss) == TotalProfit(ss)
  {
    if TotalHours(ss) > 0.0 then TotalProfit(ss) / TotalHours(ss) else 0.0
  }

  /** Both folds split over a concatenation. */
  lemma {:induction false} TotalsAppend(a: seq<Session>, b: seq<Session>)
    ensures TotalHours(a + b) == TotalHours(a) + TotalHours(b)
    ensures TotalProfit(a + b) == TotalProfit(a) + TotalProfit(b)
  {
    if b == [] {
      assert a + b == a;
    } else {
      TotalsAppend(a, b[..|b| - 1]);
      assert (a + b)[..|a + b| - 1] == a + b[..|b| - 1];
    }
  }

  /** Putting a session in front adds its hours and profit to the totals. */
  lemma {:induction false} TotalsPrepend(s: Session, ss: seq<Session>)
    ensures TotalSessions([s] + ss) == TotalSessions(ss) + 1
    ensures TotalHours([s] + ss) == s.hours + TotalHours(ss)
    ensures TotalProfit([s] + ss) == s.profit + TotalProfit(ss)
  {
    TotalsAppend([s], ss);
    assert [s][..0] == [];
  }

  // ---------------------------------------------------------------------
  // The invariant kept by the validated path

  /** Every session has a positive number of hours, as `handleSubmit`
      demands of every session it adds. */
  predicate AllHoursPositive(ss: seq<Session>)
  {
    forall i :: 0 <= i < |ss| ==> ss[i].hours > 0.0
  }

  /** With positive hours everywhere, a non-empty list has positive total
      hours, so the hourly rate is the actual ratio. */
  lemma {:induction false} HoursPositiveTotal(ss: seq<Session>)
    requires AllHoursPositive(ss)
    ensures TotalHours(ss) >= 0.0
    ensures ss != [] <==> TotalHours(ss) > 0.0
  {
    if ss != [] {
      var front := ss[..|ss| - 1];
      assert AllHoursPositive(front) by {
        forall i | 0 <= i < |front| ensures front[i].hours > 0.0 {
          assert front[i] == ss[i];
        }
      }
      HoursPositiveTotal(front);
    }
  }

  /** The rate of a non-empty, validated list is profit over hours. */
  lemma {:induction false} RateOfValidSessions(ss: seq<Session>)
    requires AllHoursPositive(ss) && ss != []
    ensures TotalHours(ss) > 0.0
    ensures HourlyRate(ss) == TotalProfit(ss) / TotalHours(ss)
  {
    HoursPositiveTotal(ss);
  }

  // ---------------------------------------------------------------------
  // handleSubmit (IncomeTracker.tsx:54-76)

  /** The guard of `handleSubmit`: hours and profit parse as numbers
      (`None` stands for NaN) and the hours are positive; the profit may be
      any number, losses included. */
  predicate SubmissionAccepted(hours: Option<real>, profit: Option<real>)
  {
    hours.Some? && profit.Some? && hours.value > 0.0
  }

  /** `formData.notes.trim() || undefined`: the trimmed notes, absent when
      nothing but whitespace was typed. */
  function NotesField(notes: string): (r: Option<string>)
    ensures r.None? <==> AllWhitespace(notes)
    ensures r.Some? ==> r.value == Trim(notes) && r.value != []
    ensures r.Some? ==> !IsWhitespace(r.value[0]) && !IsWhitespace(r.value[|r.value| - 1])
  {
    var t := Trim(notes);
    if t == [] then None else Some(t)
  }

  /** The new list after `handleSubmit`: a rejected form changes nothing,
      an accepted one puts the new session in front of the old ones. */
  function AfterSubmit(ss: seq<Session>, id: string, date: string,
                       hours: Option<real>, profit: Option<real>, notes: string): (r: seq<Session>)
    ensures !SubmissionAccepted(hours, profit) ==> r == ss
    ensures SubmissionAccepted(hours, profit) ==>
      && |r| == |ss| + 1
      && r[1..] == ss
      && r[0] == Session(id, date, hours.value, profit.value, NotesField(notes))
  {
    if !SubmissionAccepted(hours, profit) then ss
    else [Session(id, date, hours.value, profit.value, NotesField(notes))] + ss
  }

  /** An accepted submission adds one session, its hours and its profit to
      the statistics; a rejected one leaves them as they were. */
  lemma {:induction false} SubmitStats(ss: seq<Session>, id: string, date: string,
                                       hours: Option<real>, profit: Option<real>, notes: string)
    ensures !SubmissionAccepted(hours, profit) ==>
      && TotalSessions(AfterSubmit(ss, id, date, hours, profit, notes)) == TotalSessions(ss)
      && TotalHours(AfterSubmit(ss, id, date, hours, profit, notes)) == TotalHours(ss)
      && TotalProfit(AfterSubmit(ss, id, date, hours, profit, notes)) == TotalProfit(ss)
    ensures SubmissionAccepted(hours, profit) ==>
      && TotalSessions(AfterSubmit(ss, id, date, hours, profit, notes)) == TotalSessions(ss) + 1
      && TotalHours(AfterSubmit(ss, id, date, hours, profit, notes)) == TotalHours(ss) + hours.value
      && TotalProfit(AfterSubmit(ss, id, date, hours, profit, notes)) == TotalProfit(ss) + profit.value
  {
    if SubmissionAccepted(hours, profit) {
      TotalsPrepend(Session(id, date, hours.value, profit.value, NotesField(notes)), ss);
    }
  }

  /** Submitting keeps every session's hours positive. */
  lemma {:induction false} SubmitKeepsHoursPositive(ss: seq<Session>, id: string, date: string,
                                                    hours: Option<real>, profit: Option<real>, notes: string)
    requires AllHoursPositive(ss)
    ensures AllHoursPositive(AfterSubmit(ss, id, date, hours, profit, notes))
  {
    var r := AfterSubmit(ss, id, date, hours, profit, notes);
    if SubmissionAccepted(hours, profit) {
      forall i | 0 <= i < |r| ensures r[i].hours > 0.0 {
        if i > 0 {
          assert r[i] == r[1..][i - 1] == ss[i - 1];
        }
      }
    }
  }

  // ---------------------------------------------------------------------
  // deleteSession (IncomeTracker.tsx:78-82)

  /** Number of sessions carrying `id` (ids come from the clock and nothing
      forces them to be distinct). */
  function CountSessionId(ss: seq<Session>, id: string): nat
  {
    if ss == [] then 0
    else CountSessionId(ss[..|ss| - 1], id) + (if ss[|ss| - 1].id == id then 1 else 0)
  }

  /** `sessions.filter(s => s.id !== id)`: it drops exactly the sessions
      carrying the id. */
  function WithoutSession(ss: seq<Session>, id: string): (r: seq<Session>)
    ensures |r| == |ss| - CountSessionId(ss, id)
  {
    if ss == [] then []
    else WithoutSession(ss[..|ss| - 1], id) + (if ss[|ss| - 1].id != id then [ss[|ss| - 1]] else [])
  }

  /** The filter keeps exactly the sessions with another id. */
  lemma {:induction false} WithoutSessionMembers(ss: seq<Session>, id: string)
    ensures forall s :: s in WithoutSession(ss, id) <==> s in ss && s.id != id
  {
    if ss != [] {
      var n := |ss|;
      WithoutSessionMembers(ss[..n - 1], id);
      assert ss == ss[..n - 1] + [ss[n - 1]];
    }
  }

  /** The filter works piecewise, so the kept sessions stay in their order. */
  lemma {:induction false} WithoutSessionAppend(a: seq<Session>, b: seq<Session>, id: string)
    ensures WithoutSession(a + b, id) == WithoutSession(a, id) + WithoutSession(b, id)
  {
    if b == [] {
      assert a + b == a;
    } else {
      var front := b[..|b| - 1];
      WithoutSessionAppend(a, front, id);
      assert (a + b)[..|a + b| - 1] == a + front;
      assert (a + b)[|a + b| - 1] == b[|b| - 1];
    }
  }

  /** A list without the id is left as it is. */
  lemma {:induction false} WithoutSessionAbsent(ss: seq<Session>, id: string)
    requires forall i :: 0 <= i < |ss| ==> ss[i].id != id
    ensures WithoutSession(ss, id) == ss
  {
    if ss != [] {
      var front := ss[..|ss| - 1];
      forall i | 0 <= i < |front| ensures front[i].id != id {
        assert front[i] == ss[i];
      }
      WithoutSessionAbsent(front, id);
    }
  }

  /** Deleting keeps every session's hours positive. */
  lemma {:induction false} WithoutSessionKeepsHoursPositive(ss: seq<Session>, id: string)
    requires AllHoursPositive(ss)
    ensures AllHoursPositive(WithoutSession(ss, id))
  {
    var r := WithoutSession(ss, id);
    WithoutSessionMembers(ss, id);
    forall i | 0 <= i < |r| ensures r[i].hours > 0.0 {
      assert r[i] in ss;
    }
  }

  /** Deleting from a validated list never raises the total hours. */
  lemma {:induction false} WithoutSessionHours(ss: seq<Session>, id: string)
    requires AllHoursPositive(ss)
    ensures TotalHours(WithoutSession(ss, id)) <= TotalHours(ss)
  {
    if ss != [] {
      var n := |ss|;
      var front := ss[..n - 1];
      assert AllHoursPositive(front) by {
        forall i | 0 <= i < |front| ensures front[i].hours > 0.0 {
          assert front[i] == ss[i];
        }
      }
      WithoutSessionHours(front, id);
      if ss[n - 1].id != id {
        TotalsAppend(WithoutSession(front, id), [ss[n - 1]]);
        assert [ss[n - 1]][..0] == [];
      } else {
        assert WithoutSession(front, id) + [] == WithoutSession(front, id);
      }
    }
  }

  /** The new list after `deleteSession`: unchanged unless the user
      confirms; then every session with the id is gone. */
  function AfterDelete(ss: seq<Session>, id: string, confirmed: bool): (r: seq<Session>)
    ensures !confirmed ==> r == ss
    ensures confirmed ==> forall s :: s in r <==> s in ss && s.id != id
    ensures forall i :: 0 <= i < |r| ==> r[i].id != id || !confirmed
  {
    WithoutSessionMembers(ss, id);
    if confirmed then WithoutSession(ss, id) else ss
  }

  /** A worked example of the statistics: sessions of 3 hours
      winning 90 and 2 hours losing 40 give 5 hours, a profit of 50 and a
      rate of 10 an hour. */
  lemma {:induction false} StatsExample()
    ensures
      var ss := [Session("2", "2024-01-02", 3.0, 90.0, None), Session("1", "2024-01-01", 2.0, -40.0, None)];
      && TotalSessions(ss) == 2 && TotalHours(ss) == 5.0 && TotalProfit(ss) == 50.0
      && HourlyRate(ss) == 10.0
  {
    var a := Session("2", "2024-01-02", 3.0, 90.0, None);
    var b := Session("1", "2024-01-01", 2.0, -40.0, None);
    var ss := [a, b];
    assert ss[..1] == [a];
    assert [a][..0] == [];
    assert TotalHours([a]) == 3.0 && TotalProfit([a]) == 90.0;
    assert TotalHours(ss) == 5.0;
    assert TotalProfit(ss) == 50.0;
  }

  /** The session list the component holds; each handler replaces it as
      `setSessions(...)` does. */
  class SessionTracker {
    var sessions: seq<Session>

    ghost predicate Valid()
      reads this
    {
      AllHoursPositive(sessions)
    }

    /** `useState<PokerSession[]>([])`. */
    constructor ()
      ensures Valid() && sessions == []
    {
      sessions := [];
    }

    /** `handleSubmit` with the parsed form values, the clock's id and the
        day of submission; `accepted` is false where the source alerts. */
    method HandleSubmit(hours: Option<real>, profit: Option<real>, notes: string, id: string, date: string)
      returns (accepted: bool)
      requires Valid()
      modifies this
      ensures Valid()
      ensures accepted == SubmissionAccepted(hours, profit)
      ensures sessions == AfterSubmit(old(sessions), id, date, hours, profit, notes)
      ensures !accepted ==> sessions == old(sessions)
    {
      if hours.None? || profit.None? || hours.value <= 0.0 {
        return false;
      }
      SubmitKeepsHoursPositive(sessions, id, date, hours, profit, notes);
      var newSession := Session(id, date, hours.value, profit.value, NotesField(notes));
      sessions := [newSession] + sessions;
      accepted := true;
    }

    /** `deleteSession`, with the answer to the confirmation dialog. */
    method DeleteSession(id: string, confirmed: bool)
      requires Valid()
      modifies this
      ensures Valid()
      ensures sessions == AfterDelete(old(sessions), id, confirmed)
    {
      if confirmed {
        WithoutSessionKeepsHoursPositive(sessions, id);
        sessions := WithoutSession(sessions, id);
      }
    }
  }
}
