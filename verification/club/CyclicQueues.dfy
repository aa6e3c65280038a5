/** A list that is walked in cycles (include/club/generic/cyclic_queue.h).

    List iterators are positions; the position behind the last element is `list.end()`. */
module CyclicQueues {

  class CyclicQueue<T> {
    var messages: seq<T>

    constructor ()
      ensures messages == []
    {
      messages := [];
    }

    method Insert(m: T)
      modifies this
      ensures messages == old(messages) + [m]
    {
      messages := messages + [m];
    }
  }

  /** One walk over the list. Elements that are passed move to the back, where the marker `end` is left at the
      first of them; `todo` and `kept` are the elements still ahead and those passed. */
  class Cycle<T> {
    const queue: CyclicQueue<T>
    var cur: nat
    var end: nat
    ghost var todo: seq<T>
    ghost var kept: seq<T>

    ghost predicate Valid()
      reads this, queue
    {
      && queue.messages == todo + kept
      && (todo == [] ==> cur == end)
      && (todo != [] ==> cur == 0 && end == |todo|)
    }

    constructor (queue: CyclicQueue<T>)
      ensures Valid() && this.queue == queue && todo == queue.messages && kept == []
    {
      this.queue := queue;
      cur, end := 0, |queue.messages|;
      todo, kept := queue.messages, [];
    }

    /** `iterator == cycle.end()` holds exactly when every element has been visited. */
    method AtEnd() returns (b: bool)
      requires Valid()
      ensures b <==> todo == []
    {
      b := cur == end;
    }

    method Get() returns (x: T)
      requires Valid() && todo != []
      ensures x == todo[0]
    {
      x := queue.messages[cur];
    }

    method Set(x: T)
      requires Valid() && todo != []
      modifies this, queue
      ensures Valid() && todo == [x] + old(todo)[1..] && kept == old(kept)
    {
      queue.messages := queue.messages[cur := x];
      todo := todo[0 := x];
    }

    /** `++iterator`: the element goes to the back of the list. */
    method Advance()
      requires Valid() && todo != []
      modifies this, queue
      ensures Valid() && todo == old(todo)[1..] && kept == old(kept) + [old(todo)[0]]
    {
      var list := queue.messages;
      kept, todo := kept + [todo[0]], todo[1..];
      if cur + 1 == |list| {
        cur := cur + 1;
        return;
      }
      queue.messages := list[..cur] + list[cur + 1..] + [list[cur]];
      end := if end == |list| then |list| - 1 else end - 1;
    }

    /** `iterator.erase()`. */
    method Erase()
      requires Valid() && todo != []
      modifies this, queue
      ensures Valid() && todo == old(todo)[1..] && kept == old(kept)
    {
      var list := queue.messages;
      todo := todo[1..];
      queue.messages := list[..cur] + list[cur + 1..];
      end := if end == |list| then |list| - 1 else end - 1;
    }
  }

  /** What the body of a loop over a cycle may do with an element. */
  datatype Choice = Pass | Drop | Stop

  /** The elements of a visited stretch that were passed rather than erased, in order. */
  function Survivors<T>(list: seq<T>, decide: (nat, T) -> Choice): seq<T> {
    if list == [] then []
    else
      var n := |list| - 1;
      Survivors(list[..n], decide) + if decide(n, list[n]).Pass? then [list[n]] else []
  }

  lemma SurvivorsNext<T>(list: seq<T>, x: T, decide: (nat, T) -> Choice)
    ensures Survivors(list + [x], decide) ==
            if decide(|list|, x).Pass? then Survivors(list, decide) + [x] else Survivors(list, decide)
  {
    assert (list + [x])[..|list|] == list;
  }

  /** The walk goes on to the next element. */
  lemma NextVisited<T>(list: seq<T>, visited: seq<T>)
    requires visited <= list && |visited| < |list|
    ensures visited + [list[|visited|]] <= list && list[|visited|..][1..] == list[|visited| + 1..]
  {
  }

  lemma NoSurvivors<T>(decide: (nat, T) -> Choice)
    ensures Survivors([], decide) == []
  {
  }

  /** A loop over a cycle, for any body: `decide` is what the body does at the given turn with the given element.
      Each element is visited at most once, in list order; the walk ends after the last one or where the body
      stops; the erased elements are gone, and what was not visited stands ahead of what was passed. */
  method Walk<T>(queue: CyclicQueue<T>, decide: (nat, T) -> Choice) returns (visited: seq<T>)
    modifies queue
    ensures visited <= old(queue.messages)
    ensures queue.messages == old(queue.messages)[|visited|..] + Survivors(visited, decide)
    ensures forall i :: 0 <= i < |visited| ==> !decide(i, visited[i]).Stop?
    ensures |visited| < |old(queue.messages)| ==> decide(|visited|, old(queue.messages)[|visited|]).Stop?
  {
    hide Survivors;
    ghost var list := queue.messages;
    visited := [];
    assert Survivors(visited, decide) == [] by { NoSurvivors(decide); }
    var cycle := new Cycle(queue);
    var done := cycle.AtEnd();
    while !done
      invariant cycle.queue == queue && cycle.Valid() && fresh(cycle) && done == (cycle.todo == [])
      invariant visited <= list && cycle.todo == list[|visited|..] && cycle.kept == Survivors(visited, decide)
      invariant forall i :: 0 <= i < |visited| ==> !decide(i, visited[i]).Stop?
      decreases |cycle.todo|
    {
      var x := cycle.Get();
      var choice := decide(|visited|, x);
      if choice.Stop? {
        return;
      }
      NextVisited(list, visited);
      SurvivorsNext(visited, x, decide);
      visited := visited + [x];
      if choice.Pass? {
        cycle.Advance();
      } else {
        cycle.Erase();
      }
      done := cycle.AtEnd();
    }
  }
}
