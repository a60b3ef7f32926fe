/**
 Properties of the card reducer that relate several events: time accounting,
 round trips, idempotence, and what happens after a card is deleted.
 */
module CardLaws {
  import opened Wrappers
  import opened CardTypes
  import SubTasks
  import opened CardReducer

  /**
   Dispatching events one after another. `None` when some event reaches a handler that
   would throw (see `Handled`); dispatch stops there.
   */
  function Run(state: CardsState, es: seq<Event>): Option<CardsState>
    decreases |es|
    ensures |es| == 1 ==> (Run(state, es).Some? <==> Handled(state, es[0]))
    ensures |es| == 1 && Handled(state, es[0]) ==> Run(state, es).value == Apply(state, es[0])
  {
    if es == [] then Some(state)
    else if Handled(state, es[0]) then Run(Apply(state, es[0]), es[1..])
    else None
  }

  /** Dispatching `a` then `b` is dispatching `a + b`; a throw in `a` stops everything. */
  lemma {:induction false} RunAppend(state: CardsState, a: seq<Event>, b: seq<Event>)
    decreases |a|
    ensures Run(state, a + b) == if Run(state, a).None? then None else Run(Run(state, a).value, b)
  {
    if a != [] {
      assert (a + b)[0] == a[0] && (a + b)[1..] == a[1..] + b;
      if Handled(state, a[0]) {
        RunAppend(Apply(state, a[0]), a[1..], b);
      }
    } else {
      assert a + b == b;
    }
  }

  // ---------------------------------------------------------------------------
  // Time accounting

  /** Two increments of `actual` are one increment by their sum. */
  lemma AddActualTimeAdditive(state: CardsState, id: string, d1: real, d2: real)
    requires id in state && state[id].Full?
    ensures Handled(Apply(state, AddActualTime(id, d1)), AddActualTime(id, d2))
    ensures Apply(Apply(state, AddActualTime(id, d1)), AddActualTime(id, d2))
         == Apply(state, AddActualTime(id, d1 + d2))
  {
  }

  /** Setting the two halves of the time pair commutes: neither resets the other. */
  lemma SetTimesCommute(state: CardsState, id: string, est: real, act: real)
    requires id in state && state[id].Full?
    ensures Handled(Apply(state, SetEstimatedTime(id, est)), SetActualTime(id, act))
    ensures Handled(Apply(state, SetActualTime(id, act)), SetEstimatedTime(id, est))
    ensures Apply(Apply(state, SetEstimatedTime(id, est)), SetActualTime(id, act))
         == Apply(Apply(state, SetActualTime(id, act)), SetEstimatedTime(id, est))
  {
  }

  /** Setting `actual` discards whatever was accumulated before. */
  lemma SetActualAfterAdd(state: CardsState, id: string, plus: real, hours: real)
    requires id in state && state[id].Full?
    ensures Handled(Apply(state, AddActualTime(id, plus)), SetActualTime(id, hours))
    ensures Apply(Apply(state, AddActualTime(id, plus)), SetActualTime(id, hours))
         == Apply(state, SetActualTime(id, hours))
  {
  }

  /** A session adds to `actual` exactly what `AddActualTime` would. */
  lemma SessionTimeIsAddActual(state: CardsState, id: string, sid: string, spent: real)
    requires id in state && state[id].Full?
    ensures Apply(state, AddSession(id, sid, spent))[id].card.spentTimeInHour
         == Apply(state, AddActualTime(id, spent))[id].card.spentTimeInHour
  {
  }

  /** Two sessions: both ids logged in order, both durations added. */
  lemma TwoSessions(state: CardsState, id: string, s1: string, d1: real, s2: string, d2: real)
    requires id in state && state[id].Full?
    ensures Handled(Apply(state, AddSession(id, s1, d1)), AddSession(id, s2, d2))
    ensures var r := Apply(Apply(state, AddSession(id, s1, d1)), AddSession(id, s2, d2));
      && r.Keys == state.Keys && r[id].Full?
      && r[id].card.sessionIds == state[id].card.sessionIds + [s1, s2]
      && r[id].card.spentTimeInHour.actual == state[id].card.spentTimeInHour.actual + d1 + d2
      && r[id].card.spentTimeInHour.estimated == state[id].card.spentTimeInHour.estimated
  {
  }

  /** Events that may change the estimate of card `id`, drop it or replace it. */
  predicate ResetsEstimate(e: Event, id: string) {
    e.SetCards? || ((e.SetEstimatedTime? || e.AddCard? || e.DeleteCard?) && e.id == id)
  }

  /** Events that may change `actual` of card `id`, drop it or replace it. */
  predicate TouchesActual(e: Event, id: string) {
    e.SetCards? || ((e.SetActualTime? || e.AddActualTime? || e.AddSession? || e.AddCard? || e.DeleteCard?) && e.id == id)
  }

  /** Events that may set `actual` of card `id` outright, drop it or replace it. */
  predicate ResetsActual(e: Event, id: string) {
    e.SetCards? || ((e.SetActualTime? || e.AddCard? || e.DeleteCard?) && e.id == id)
  }

  /** A dispatch sequence that never sets card `id`'s estimate, nor drops or replaces it, leaves that estimate alone. */
  lemma {:induction false} EstimateSurvives(state: CardsState, es: seq<Event>, id: string)
    requires id in state && state[id].Full?
    requires forall i :: 0 <= i < |es| ==> !ResetsEstimate(es[i], id)
    requires Run(state, es).Some?
    decreases |es|
    ensures id in Run(state, es).value && Run(state, es).value[id].Full?
    ensures Run(state, es).value[id].card.spentTimeInHour.estimated == state[id].card.spentTimeInHour.estimated
  {
    if es != [] {
      var next := Apply(state, es[0]);
      assert !ResetsEstimate(es[0], id);
      assert id in next && next[id].Full?;
      assert next[id].card.spentTimeInHour.estimated == state[id].card.spentTimeInHour.estimated;
      EstimateSurvives(next, es[1..], id);
    }
  }

  /** A dispatch sequence with no event on card `id`'s `actual` leaves that `actual` alone. */
  lemma {:induction false} ActualSurvives(state: CardsState, es: seq<Event>, id: string)
    requires id in state && state[id].Full?
    requires forall i :: 0 <= i < |es| ==> !TouchesActual(es[i], id)
    requires Run(state, es).Some?
    decreases |es|
    ensures id in Run(state, es).value && Run(state, es).value[id].Full?
    ensures Run(state, es).value[id].card.spentTimeInHour.actual == state[id].card.spentTimeInHour.actual
  {
    if es != [] {
      var next := Apply(state, es[0]);
      assert !TouchesActual(es[0], id);
      assert id in next && next[id].Full?;
      assert next[id].card.spentTimeInHour.actual == state[id].card.spentTimeInHour.actual;
      ActualSurvives(next, es[1..], id);
    }
  }

  /** Events that may reset card `id`'s session log: re-adding, dropping or replacing the card. */
  predicate ResetsSessions(e: Event, id: string) {
    e.SetCards? || ((e.AddCard? || e.DeleteCard?) && e.id == id)
  }

  /** A dispatch sequence that never re-adds, drops or replaces card `id` only extends its session log. */
  lemma {:induction false} SessionLogGrows(state: CardsState, es: seq<Event>, id: string)
    requires id in state && state[id].Full?
    requires forall i :: 0 <= i < |es| ==> !ResetsSessions(es[i], id)
    requires Run(state, es).Some?
    decreases |es|
    ensures id in Run(state, es).value && Run(state, es).value[id].Full?
    ensures |state[id].card.sessionIds| <= |Run(state, es).value[id].card.sessionIds|
    ensures Run(state, es).value[id].card.sessionIds[..|state[id].card.sessionIds|] == state[id].card.sessionIds
  {
    if es != [] {
      var next := Apply(state, es[0]);
      assert !ResetsSessions(es[0], id);
      assert id in next && next[id].Full?;
      var before, mid := state[id].card.sessionIds, next[id].card.sessionIds;
      assert |before| <= |mid| && mid[..|before|] == before;
      SessionLogGrows(next, es[1..], id);
      var after := Run(next, es[1..]).value[id].card.sessionIds;
      assert after[..|mid|] == mid;
      assert after[..|before|] == mid[..|before|];
    }
  }

  /** The increment an event makes to `actual`, if any, is non-negative. */
  predicate NonNegativeIncrement(e: Event) {
    (e.AddActualTime? ==> e.plus >= 0.0) && (e.AddSession? ==> e.spentTime >= 0.0)
  }

  /**
   Without a "set actual time" on card `id` (or the card being dropped or replaced),
   non-negative increments only make its `actual` grow.
   */
  lemma {:induction false} ActualNeverDecreases(state: CardsState, es: seq<Event>, id: string)
    requires id in state && state[id].Full?
    requires forall i :: 0 <= i < |es| ==>
      NonNegativeIncrement(es[i]) && !ResetsActual(es[i], id)
    requires Run(state, es).Some?
    decreases |es|
    ensures id in Run(state, es).value && Run(state, es).value[id].Full?
    ensures Run(state, es).value[id].card.spentTimeInHour.actual >= state[id].card.spentTimeInHour.actual
  {
    if es != [] {
      var next := Apply(state, es[0]);
      assert NonNegativeIncrement(es[0]) && !ResetsActual(es[0], id);
      assert id in next && next[id].Full?;
      assert next[id].card.spentTimeInHour.actual >= state[id].card.spentTimeInHour.actual;
      ActualNeverDecreases(next, es[1..], id);
    }
  }

  // ---------------------------------------------------------------------------
  // Cards

  /** Adding a card and deleting it again is deleting the id; on a fresh id, nothing happened. */
  lemma AddThenDeleteCard(state: CardsState, id: string, title: Option<string>, content: Option<string>,
                          created: Option<int>, clock: int)
    ensures Apply(Apply(state, AddCard(id, title, content, created, clock)), DeleteCard(id))
         == Apply(state, DeleteCard(id))
    ensures id !in state ==>
      Apply(Apply(state, AddCard(id, title, content, created, clock)), DeleteCard(id)) == state
  {
  }

  /** Renaming twice: the last title wins. */
  lemma RenameTwice(state: CardsState, id: string, t1: string, t2: string)
    ensures Apply(Apply(state, RenameCard(id, t1)), RenameCard(id, t2)) == Apply(state, RenameCard(id, t2))
  {
  }

  /** Setting the content twice: the last content wins. */
  lemma SetContentTwice(state: CardsState, id: string, c1: string, c2: string)
    ensures Apply(Apply(state, SetContent(id, c1)), SetContent(id, c2)) == Apply(state, SetContent(id, c2))
  {
  }

  /**
   After a delete the id is gone, but the reducer does not ignore later events on it:
   a rename brings back a bare `{title}` entry, and time, session and subtask events would throw.
   */
  lemma EventsAfterDelete(state: CardsState, id: string, title: string, hours: real, sid: string)
    ensures id !in Apply(state, DeleteCard(id))
    ensures Apply(Apply(state, DeleteCard(id)), RenameCard(id, title))[id] == Partial(Some(title), None, None)
    ensures !Handled(Apply(state, DeleteCard(id)), SetEstimatedTime(id, hours))
    ensures !Handled(Apply(state, DeleteCard(id)), SetActualTime(id, hours))
    ensures !Handled(Apply(state, DeleteCard(id)), AddActualTime(id, hours))
    ensures !Handled(Apply(state, DeleteCard(id)), AddSession(id, sid, hours))
    ensures !Handled(Apply(state, DeleteCard(id)), AddSubTask(id, SubTask(sid, title, false, 0)))
    ensures !Handled(Apply(state, DeleteCard(id)), ToggleSubTask(id, sid))
    ensures !Handled(Apply(state, DeleteCard(id)), DeleteSubTask(id, sid))
    ensures !Handled(Apply(state, DeleteCard(id)), UpdateSubTask(id, sid, title))
  {
  }

  // ---------------------------------------------------------------------------
  // Subtasks

  /**
   Adding a subtask whose id is new and deleting that id gives the card back, except that
   an absent sequence comes back as the empty one.
   */
  lemma AddThenDeleteSubTask(state: CardsState, cid: string, st: SubTask)
    requires cid in state
    requires SubTasks.NoId(SubTasksOf(state[cid]).GetOr([]), st.id)
    ensures Handled(Apply(state, AddSubTask(cid, st)), DeleteSubTask(cid, st.id))
    ensures var r := Apply(Apply(state, AddSubTask(cid, st)), DeleteSubTask(cid, st.id));
      && r.Keys == state.Keys
      && OthersUntouched(state, r, cid)
      && SubTasksOf(r[cid]) == Some(SubTasksOf(state[cid]).GetOr([]))
      && WithSubTasks(r[cid], SubTasksOf(state[cid])) == state[cid]
    ensures SubTasksOf(state[cid]).Some? ==>
      Apply(Apply(state, AddSubTask(cid, st)), DeleteSubTask(cid, st.id)) == state
  {
    var old_sts := SubTasksOf(state[cid]).GetOr([]);
    SubTasks.AppendThenRemove(old_sts, st);
    var r1 := Apply(state, AddSubTask(cid, st));
    var r := Apply(r1, DeleteSubTask(cid, st.id));
    assert SubTasksOf(r1[cid]) == Some(old_sts + [st]);
    assert SubTasksOf(r[cid]) == Some(old_sts);
    if SubTasksOf(state[cid]).Some? {
      assert r[cid] == state[cid];
      assert r.Keys == state.Keys;
    }
  }

  /** Toggling the same subtask twice gives the state back. */
  lemma ToggleSubTaskTwice(state: CardsState, cid: string, sid: string)
    requires cid in state
    ensures Handled(Apply(state, ToggleSubTask(cid, sid)), ToggleSubTask(cid, sid))
    ensures Apply(Apply(state, ToggleSubTask(cid, sid)), ToggleSubTask(cid, sid)) == state
  {
    if SubTasksOf(state[cid]).Some? {
      var sts := SubTasksOf(state[cid]).value;
      SubTasks.ToggleTwice(sts, sid);
      var r := Apply(Apply(state, ToggleSubTask(cid, sid)), ToggleSubTask(cid, sid));
      assert SubTasksOf(r[cid]) == SubTasksOf(state[cid]);
      assert r[cid] == state[cid];
    }
  }

  /** Updating the same subtask twice: the last title wins. */
  lemma UpdateSubTaskTwice(state: CardsState, cid: string, sid: string, t1: string, t2: string)
    requires cid in state
    ensures Handled(Apply(state, UpdateSubTask(cid, sid, t1)), UpdateSubTask(cid, sid, t2))
    ensures Apply(Apply(state, UpdateSubTask(cid, sid, t1)), UpdateSubTask(cid, sid, t2))
         == Apply(state, UpdateSubTask(cid, sid, t2))
  {
    if SubTasksOf(state[cid]).Some? {
      SubTasks.RetitleTwice(SubTasksOf(state[cid]).value, sid, t1, t2);
    }
  }

  // ---------------------------------------------------------------------------
  // Scenarios

  /** An empty board, one card added: zeroed times, empty content, no subtasks. */
  lemma NewCardScenario(clock: int)
    ensures Apply(map[], AddCard("c1", Some("Buy milk"), Some(""), Some(clock), clock))
         == map["c1" := Full(Card("c1", "Buy milk", "", clock, [], SpentTime(0.0, 0.0), Some([])))]
  {
  }

  /** Two finished timers on one card: sessions `s1`, `s2` and 1.5 + 0.5 hours. */
  lemma TimerScenario(state: CardsState)
    requires "c1" in state && state["c1"].Full?
    requires state["c1"].card.sessionIds == [] && state["c1"].card.spentTimeInHour.actual == 0.0
    ensures Run(state, [AddSession("c1", "s1", 1.5), AddSession("c1", "s2", 0.5)]).Some?
    ensures var r := Run(state, [AddSession("c1", "s1", 1.5), AddSession("c1", "s2", 0.5)]).value;
      && "c1" in r && r["c1"].Full?
      && r["c1"].card.sessionIds == ["s1", "s2"] && r["c1"].card.spentTimeInHour.actual == 2.0
  {
  }
}
