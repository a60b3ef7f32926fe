/**
 The three edits the reducer makes to a card's subtask sequence: flip `completed`
 (`.map`), change `title` (`.map`) and remove by id (`.filter`). Every subtask whose id
 matches is affected, not only the first.
 */
module SubTasks {
  import opened CardTypes

  /** No subtask in `sts` carries `id`. */
  predicate NoId(sts: seq<SubTask>, id: string) {
    forall i :: 0 <= i < |sts| ==> sts[i].id != id
  }

  /** Same length and, position by position, the same id and creation time. */
  predicate SameSlots(a: seq<SubTask>, b: seq<SubTask>) {
    |a| == |b| && forall i :: 0 <= i < |a| ==> a[i].id == b[i].id && a[i].createdTime == b[i].createdTime
  }

  function Flipped(st: SubTask, id: string): SubTask {
    if st.id == id then st.(completed := !st.completed) else st
  }

  function Retitled(st: SubTask, id: string, title: string): SubTask {
    if st.id == id then st.(title := title) else st
  }

  /** `subTasks.map(st => st._id === id ? {...st, completed: !st.completed} : st)` */
  function Toggle(sts: seq<SubTask>, id: string): (r: seq<SubTask>)
    ensures SameSlots(sts, r)
    ensures forall i :: 0 <= i < |r| ==> r[i].title == sts[i].title
    ensures forall i :: 0 <= i < |r| ==> r[i].completed == (sts[i].completed != (sts[i].id == id))
    ensures NoId(sts, id) ==> r == sts
  {
    if sts == [] then [] else [Flipped(sts[0], id)] + Toggle(sts[1..], id)
  }

  /** `subTasks.map(st => st._id === id ? {...st, title} : st)` */
  function Retitle(sts: seq<SubTask>, id: string, title: string): (r: seq<SubTask>)
    ensures SameSlots(sts, r)
    ensures forall i :: 0 <= i < |r| ==> r[i].completed == sts[i].completed
    ensures forall i :: 0 <= i < |r| ==> r[i].title == if sts[i].id == id then title else sts[i].title
    ensures NoId(sts, id) ==> r == sts
  {
    if sts == [] then [] else [Retitled(sts[0], id, title)] + Retitle(sts[1..], id, title)
  }

  /** `subTasks.filter(st => st._id !== id)` */
  function Remove(sts: seq<SubTask>, id: string): (r: seq<SubTask>)
    ensures |r| <= |sts|
    ensures NoId(r, id)
  {
    if sts == [] then []
    else if sts[0].id == id then Remove(sts[1..], id)
    else [sts[0]] + Remove(sts[1..], id)
  }

  /** Removing keeps the relative order: it works piece by piece over a concatenation. */
  lemma {:induction false} RemoveConcat(a: seq<SubTask>, b: seq<SubTask>, id: string)
    ensures Remove(a + b, id) == Remove(a, id) + Remove(b, id)
  {
    if a == [] {
      assert a + b == b;
    } else {
      var ab := a + b;
      assert ab[0] == a[0] && ab[1..] == a[1..] + b;
      RemoveConcat(a[1..], b, id);
      var head := if a[0].id == id then [] else [a[0]];
      calc {
        Remove(ab, id);
        head + Remove(a[1..] + b, id);
        head + (Remove(a[1..], id) + Remove(b, id));
        (head + Remove(a[1..], id)) + Remove(b, id);
        Remove(a, id) + Remove(b, id);
      }
    }
  }

  /** Removing drops exactly the subtasks carrying `id` and keeps every other one. */
  lemma {:induction false} RemoveMembers(sts: seq<SubTask>, id: string)
    ensures forall st :: st in Remove(sts, id) <==> st in sts && st.id != id
  {
    if sts != [] {
      RemoveMembers(sts[1..], id);
      assert forall st :: st in sts <==> st == sts[0] || st in sts[1..];
    }
  }

  /** Removing an id that no subtask carries changes nothing. */
  lemma {:induction false} RemoveAbsent(sts: seq<SubTask>, id: string)
    requires NoId(sts, id)
    ensures Remove(sts, id) == sts
  {
    if sts != [] {
      RemoveAbsent(sts[1..], id);
    }
  }

  /** Appending a subtask with a fresh id and then removing that id gives the sequence back. */
  lemma AppendThenRemove(sts: seq<SubTask>, st: SubTask)
    requires NoId(sts, st.id)
    ensures Remove(sts + [st], st.id) == sts
  {
    RemoveConcat(sts, [st], st.id);
    RemoveAbsent(sts, st.id);
    assert Remove([st], st.id) == Remove([], st.id);
  }

  /** Toggling the same id twice is the identity. */
  lemma ToggleTwice(sts: seq<SubTask>, id: string)
    ensures Toggle(Toggle(sts, id), id) == sts
  {
  }

  /** Retitling the same id twice: the second title is the one that stays. */
  lemma RetitleTwice(sts: seq<SubTask>, id: string, t1: string, t2: string)
    ensures Retitle(Retitle(sts, id, t1), id, t2) == Retitle(sts, id, t2)
  {
  }

  /** Toggling and retitling touch different properties, so their order does not matter. */
  lemma ToggleRetitleCommute(sts: seq<SubTask>, a: string, b: string, title: string)
    ensures Toggle(Retitle(sts, b, title), a) == Retitle(Toggle(sts, a), b, title)
  {
  }
}
