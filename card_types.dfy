/**
 The records the card reducer works on: a card, its subtasks and its time pair,
 and what the reducer can find stored under a card id.
 */
module CardTypes {
  import opened Wrappers

  /** Hours planned and hours spent on a card. JavaScript numbers are idealised as reals. */
  datatype SpentTime = SpentTime(estimated: real, actual: real)

  datatype SubTask = SubTask(id: string, title: string, completed: bool, createdTime: int)

  /**
   A card as stored. `subTasks` is absent on cards written before subtasks existed;
   the reducer changes `sessionIds` only by appending, unless the card is re-added or replaced.
   */
  datatype Card = Card(
    id: string,
    title: string,
    content: string,
    createdTime: int,
    sessionIds: seq<string>,
    spentTimeInHour: SpentTime,
    subTasks: Option<seq<SubTask>>)

  /**
   What the state holds under a key. Renaming or setting the content of an id that is
   not in the state spreads `undefined` into a new object, so the reducer can also hold
   an object with only some of a card's properties: `Partial`.
   */
  datatype Entry =
    | Full(card: Card)
    | Partial(title: Option<string>, content: Option<string>, subTasks: Option<seq<SubTask>>)

  /** The normalised collection: card id to entry. */
  type CardsState = map<string, Entry>

  /** The `subTasks` property of an entry, whichever shape it has. */
  function SubTasksOf(e: Entry): Option<seq<SubTask>> {
    match e
    case Full(c) => c.subTasks
    case Partial(_, _, sts) => sts
  }

  /** The entry with its `subTasks` property replaced and every other property kept. */
  function WithSubTasks(e: Entry, sts: Option<seq<SubTask>>): (r: Entry)
    ensures SubTasksOf(r) == sts
    ensures r.Full? == e.Full?
    ensures e.Full? ==> r.card.(subTasks := e.card.subTasks) == e.card
    ensures e.Partial? ==> r.title == e.title && r.content == e.content
  {
    match e
    case Full(c) => Full(c.(subTasks := sts))
    case Partial(t, ct, _) => Partial(t, ct, sts)
  }
}
