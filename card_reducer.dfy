/**
 The card reducer: the events it consumes and the new state it computes for each.
 Every handler builds a new map and leaves the old one as it was, so each is a function.
 */
module CardReducer {
  import opened Wrappers
  import opened CardTypes
  import SubTasks

  /**
   The events, with their payloads. `AddCard.clock` is the time the reducer reads
   when the payload carries no `createdTime`.
   */
  datatype Event =
    | AddSession(id: string, sessionId: string, spentTime: real)
    | AddCard(id: string, givenTitle: Option<string>, givenContent: Option<string>, givenCreatedTime: Option<int>, clock: int)
    | RenameCard(id: string, title: string)
    | SetContent(id: string, content: string)
    | SetEstimatedTime(id: string, estimatedTime: real)
    | SetActualTime(id: string, actualTime: real)
    | AddActualTime(id: string, plus: real)
    | DeleteCard(id: string)
    | SetCards(cards: map<string, Card>)
    | AddSubTask(cardId: string, subTask: SubTask)
    | ToggleSubTask(cardId: string, subTaskId: string)
    | DeleteSubTask(cardId: string, subTaskId: string)
    | UpdateSubTask(cardId: string, subTaskId: string, title: string)

  /** The key an event is addressed to (none for `SetCards`). */
  function Target(e: Event): string
    requires !e.SetCards?
  {
    match e
    case AddSession(id, _, _) => id
    case AddCard(id, _, _, _, _) => id
    case RenameCard(id, _) => id
    case SetContent(id, _) => id
    case SetEstimatedTime(id, _) => id
    case SetActualTime(id, _) => id
    case AddActualTime(id, _) => id
    case DeleteCard(id) => id
    case AddSubTask(cid, _) => cid
    case ToggleSubTask(cid, _) => cid
    case DeleteSubTask(cid, _) => cid
    case UpdateSubTask(cid, _, _) => cid
  }

  /**
   The handler runs without throwing. The time and session handlers read
   `state[id].spentTimeInHour` or `state[id].sessionIds`, which exist only on a full card;
   the subtask handlers read `state[cardId].subTasks`, which needs some entry.
   */
  predicate Handled(state: CardsState, e: Event)
    ensures e.AddCard? || e.RenameCard? || e.SetContent? || e.DeleteCard? || e.SetCards? ==> Handled(state, e)
    ensures !(e.AddCard? || e.RenameCard? || e.SetContent? || e.DeleteCard? || e.SetCards?) ==>
      (Handled(state, e) ==> Target(e) in state)
  {
    match e
    case AddSession(id, _, _) => id in state && state[id].Full?
    case SetEstimatedTime(id, _) => id in state && state[id].Full?
    case SetActualTime(id, _) => id in state && state[id].Full?
    case AddActualTime(id, _) => id in state && state[id].Full?
    case AddSubTask(cid, _) => cid in state
    case ToggleSubTask(cid, _) => cid in state
    case DeleteSubTask(cid, _) => cid in state
    case UpdateSubTask(cid, _, _) => cid in state
    case _ => true
  }

  /** Every key of `state` other than `id` is still in `r` with the same entry. */
  ghost predicate OthersUntouched(state: CardsState, r: CardsState, id: string) {
    forall k :: k in state && k != id ==> k in r && r[k] == state[k]
  }

  /** Creates the card under `id` with zeroed times and no sessions or subtasks, overwriting any entry. */
  function AddCardTo(state: CardsState, id: string, title: Option<string>, content: Option<string>,
                     createdTime: Option<int>, clock: int): (r: CardsState)
    ensures r.Keys == state.Keys + {id}
    ensures OthersUntouched(state, r, id)
    ensures r[id].Full? && r[id].card.id == id
    ensures r[id].card.sessionIds == [] && r[id].card.subTasks == Some([])
    ensures r[id].card.spentTimeInHour == SpentTime(0.0, 0.0)
    ensures r[id].card.title == (if title.None? then "" else title.value)
    ensures r[id].card.content == (if content.None? then "" else content.value)
    ensures r[id].card.createdTime == (if createdTime.None? then clock else createdTime.value)
  {
    state[id := Full(Card(id, title.GetOr(""), content.GetOr(""), createdTime.GetOr(clock),
                          [], SpentTime(0.0, 0.0), Some([])))]
  }

  /** `{...state[id], title}`: only the title changes; on an absent id a bare `{title}` appears. */
  function Rename(state: CardsState, id: string, title: string): (r: CardsState)
    ensures r.Keys == state.Keys + {id}
    ensures OthersUntouched(state, r, id)
    ensures id !in state ==> r[id] == Partial(Some(title), None, None)
    ensures id in state ==> r[id].Full? == state[id].Full? && SubTasksOf(r[id]) == SubTasksOf(state[id])
    ensures id in state && state[id].Full? ==>
      r[id].card.title == title && r[id].card.(title := state[id].card.title) == state[id].card
    ensures id in state && state[id].Partial? ==>
      r[id].title == Some(title) && r[id].content == state[id].content
  {
    var e := if id in state then state[id] else Partial(None, None, None);
    var e' := match e
      case Full(c) => Full(c.(title := title))
      case Partial(_, ct, sts) => Partial(Some(title), ct, sts);
    state[id := e']
  }

  /** `{...state[id], content}`: only the content changes; on an absent id a bare `{content}` appears. */
  function SetContentOf(state: CardsState, id: string, content: string): (r: CardsState)
    ensures r.Keys == state.Keys + {id}
    ensures OthersUntouched(state, r, id)
    ensures id !in state ==> r[id] == Partial(None, Some(content), None)
    ensures id in state ==> r[id].Full? == state[id].Full? && SubTasksOf(r[id]) == SubTasksOf(state[id])
    ensures id in state && state[id].Full? ==>
      r[id].card.content == content && r[id].card.(content := state[id].card.content) == state[id].card
    ensures id in state && state[id].Partial? ==>
      r[id].content == Some(content) && r[id].title == state[id].title
  {
    var e := if id in state then state[id] else Partial(None, None, None);
    var e' := match e
      case Full(c) => Full(c.(content := content))
      case Partial(t, _, sts) => Partial(t, Some(content), sts);
    state[id := e']
  }

  /** The card under `id` with a new time pair; every other property and card kept. */
  function WithTime(state: CardsState, id: string, t: SpentTime): (r: CardsState)
    requires id in state && state[id].Full?
    ensures r.Keys == state.Keys
    ensures OthersUntouched(state, r, id)
    ensures r[id].Full? && r[id].card.spentTimeInHour == t
    ensures r[id].card.(spentTimeInHour := state[id].card.spentTimeInHour) == state[id].card
  {
    state[id := Full(state[id].card.(spentTimeInHour := t))]
  }

  /** Replaces the estimate and copies `actual` from the current card. */
  function SetEstimated(state: CardsState, id: string, hours: real): (r: CardsState)
    requires id in state && state[id].Full?
    ensures r.Keys == state.Keys && OthersUntouched(state, r, id) && r[id].Full?
    ensures r[id].card.spentTimeInHour.estimated == hours
    ensures r[id].card.spentTimeInHour.actual == state[id].card.spentTimeInHour.actual
    ensures r[id].card.(spentTimeInHour := state[id].card.spentTimeInHour) == state[id].card
  {
    WithTime(state, id, SpentTime(hours, state[id].card.spentTimeInHour.actual))
  }

  /** Replaces `actual` and copies the estimate from the current card. */
  function SetActual(state: CardsState, id: string, hours: real): (r: CardsState)
    requires id in state && state[id].Full?
    ensures r.Keys == state.Keys && OthersUntouched(state, r, id) && r[id].Full?
    ensures r[id].card.spentTimeInHour.actual == hours
    ensures r[id].card.spentTimeInHour.estimated == state[id].card.spentTimeInHour.estimated
    ensures r[id].card.(spentTimeInHour := state[id].card.spentTimeInHour) == state[id].card
  {
    WithTime(state, id, SpentTime(state[id].card.spentTimeInHour.estimated, hours))
  }

  /** Adds `plus` to `actual`; the estimate is never touched. */
  function AddActual(state: CardsState, id: string, plus: real): (r: CardsState)
    requires id in state && state[id].Full?
    ensures r.Keys == state.Keys && OthersUntouched(state, r, id) && r[id].Full?
    ensures r[id].card.spentTimeInHour.actual - state[id].card.spentTimeInHour.actual == plus
    ensures r[id].card.spentTimeInHour.estimated == state[id].card.spentTimeInHour.estimated
    ensures r[id].card.(spentTimeInHour := state[id].card.spentTimeInHour) == state[id].card
  {
    var t := state[id].card.spentTimeInHour;
    WithTime(state, id, t.(actual := t.actual + plus))
  }

  /** Records a finished session: appends its id at the end and adds its hours to `actual`. */
  function AddSessionTo(state: CardsState, id: string, sessionId: string, spentTime: real): (r: CardsState)
    requires id in state && state[id].Full?
    ensures r.Keys == state.Keys && OthersUntouched(state, r, id) && r[id].Full?
    ensures |r[id].card.sessionIds| == |state[id].card.sessionIds| + 1
    ensures r[id].card.sessionIds[..|state[id].card.sessionIds|] == state[id].card.sessionIds
    ensures r[id].card.sessionIds[|state[id].card.sessionIds|] == sessionId
    ensures r[id].card.spentTimeInHour.actual - state[id].card.spentTimeInHour.actual == spentTime
    ensures r[id].card.spentTimeInHour.estimated == state[id].card.spentTimeInHour.estimated
    ensures r[id].card.(sessionIds := state[id].card.sessionIds,
                        spentTimeInHour := state[id].card.spentTimeInHour) == state[id].card
  {
    var c := state[id].card;
    state[id := Full(c.(sessionIds := c.sessionIds + [sessionId],
                        spentTimeInHour := SpentTime(c.spentTimeInHour.estimated, c.spentTimeInHour.actual + spentTime)))]
  }

  /** Drops the key `id`; a missing id leaves the state as it was. */
  function Delete(state: CardsState, id: string): (r: CardsState)
    ensures r.Keys == state.Keys - {id}
    ensures forall k :: k in r ==> r[k] == state[k]
    ensures id !in state ==> r == state
  {
    state - {id}
  }

  /** The whole state becomes the payload. */
  function Replace(cards: map<string, Card>): (r: CardsState)
    ensures r.Keys == cards.Keys
    ensures forall k :: k in r ==> r[k].Full? && r[k].card == cards[k]
  {
    map k | k in cards :: Full(cards[k])
  }

  /** The entry under `id` with new subtasks; every other property and card kept. */
  function WithSubTasksAt(state: CardsState, id: string, sts: seq<SubTask>): (r: CardsState)
    requires id in state
    ensures r.Keys == state.Keys
    ensures OthersUntouched(state, r, id)
    ensures SubTasksOf(r[id]) == Some(sts)
    ensures WithSubTasks(r[id], SubTasksOf(state[id])) == state[id]
  {
    state[id := WithSubTasks(state[id], Some(sts))]
  }

  /** Appends the subtask at the end, an absent sequence counting as empty. */
  function AddSubTaskTo(state: CardsState, cid: string, st: SubTask): (r: CardsState)
    requires cid in state
    ensures r.Keys == state.Keys && OthersUntouched(state, r, cid)
    ensures SubTasksOf(r[cid]) == Some(SubTasksOf(state[cid]).GetOr([]) + [st])
    ensures WithSubTasks(r[cid], SubTasksOf(state[cid])) == state[cid]
  {
    WithSubTasksAt(state, cid, SubTasksOf(state[cid]).GetOr([]) + [st])
  }

  /** Flips `completed` on the subtasks carrying `sid`; nothing happens when the card has no sequence. */
  function ToggleSubTaskIn(state: CardsState, cid: string, sid: string): (r: CardsState)
    requires cid in state
    ensures SubTasksOf(state[cid]).None? ==> r == state
    ensures SubTasksOf(state[cid]).Some? ==>
      && r.Keys == state.Keys && OthersUntouched(state, r, cid)
      && SubTasksOf(r[cid]) == Some(SubTasks.Toggle(SubTasksOf(state[cid]).value, sid))
      && WithSubTasks(r[cid], SubTasksOf(state[cid])) == state[cid]
  {
    match SubTasksOf(state[cid])
    case None => state
    case Some(sts) => WithSubTasksAt(state, cid, SubTasks.Toggle(sts, sid))
  }

  /** Removes the subtasks carrying `sid`; nothing happens when the card has no sequence. */
  function DeleteSubTaskIn(state: CardsState, cid: string, sid: string): (r: CardsState)
    requires cid in state
    ensures SubTasksOf(state[cid]).None? ==> r == state
    ensures SubTasksOf(state[cid]).Some? ==>
      && r.Keys == state.Keys && OthersUntouched(state, r, cid)
      && SubTasksOf(r[cid]) == Some(SubTasks.Remove(SubTasksOf(state[cid]).value, sid))
      && WithSubTasks(r[cid], SubTasksOf(state[cid])) == state[cid]
  {
    match SubTasksOf(state[cid])
    case None => state
    case Some(sts) => WithSubTasksAt(state, cid, SubTasks.Remove(sts, sid))
  }

  /** Sets the title of the subtasks carrying `sid`; nothing happens when the card has no sequence. */
  function UpdateSubTaskIn(state: CardsState, cid: string, sid: string, title: string): (r: CardsState)
    requires cid in state
    ensures SubTasksOf(state[cid]).None? ==> r == state
    ensures SubTasksOf(state[cid]).Some? ==>
      && r.Keys == state.Keys && OthersUntouched(state, r, cid)
      && SubTasksOf(r[cid]) == Some(SubTasks.Retitle(SubTasksOf(state[cid]).value, sid, title))
      && WithSubTasks(r[cid], SubTasksOf(state[cid])) == state[cid]
  {
    match SubTasksOf(state[cid])
    case None => state
    case Some(sts) => WithSubTasksAt(state, cid, SubTasks.Retitle(sts, sid, title))
  }

  /**
   The reducer. Apart from `SetCards`, which replaces everything, an event changes at most
   the entry under its own key; only `DeleteCard` removes a key and only `AddCard`,
   `RenameCard` and `SetContent` can add one.
   */
  function Apply(state: CardsState, e: Event): (r: CardsState)
    requires Handled(state, e)
    ensures !e.SetCards? ==> OthersUntouched(state, r, Target(e))
    ensures e.DeleteCard? ==> r.Keys == state.Keys - {e.id}
    ensures e.SetCards? ==> r.Keys == e.cards.Keys
    ensures e.AddCard? || e.RenameCard? || e.SetContent? ==> r.Keys == state.Keys + {e.id}
    ensures !e.SetCards? && !e.DeleteCard? && !e.AddCard? && !e.RenameCard? && !e.SetContent? ==>
      r.Keys == state.Keys
  {
    match e
    case AddSession(id, sid, spent) => AddSessionTo(state, id, sid, spent)
    case AddCard(id, title, content, created, clock) => AddCardTo(state, id, title, content, created, clock)
    case RenameCard(id, title) => Rename(state, id, title)
    case SetContent(id, content) => SetContentOf(state, id, content)
    case SetEstimatedTime(id, hours) => SetEstimated(state, id, hours)
    case SetActualTime(id, hours) => SetActual(state, id, hours)
    case AddActualTime(id, plus) => AddActual(state, id, plus)
    case DeleteCard(id) => Delete(state, id)
    case SetCards(cards) => Replace(cards)
    case AddSubTask(cid, st) => AddSubTaskTo(state, cid, st)
    case ToggleSubTask(cid, sid) => ToggleSubTaskIn(state, cid, sid)
    case DeleteSubTask(cid, sid) => DeleteSubTaskIn(state, cid, sid)
    case UpdateSubTask(cid, sid, title) => UpdateSubTaskIn(state, cid, sid, title)
  }
}
