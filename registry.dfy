/** The values of the Observer-pattern registry: the two observer variants,
    the events their reactions report, and the specification functions that
    say what the registry operations of a gamer compute. */
module Observers {

  /** An observer of a gamer. PHP's loose `==` on objects compares the class and
      the property values. Here two observers are equal when their datatype values
      are: same variant, same damage and the same name as an exact string. PHP's
      `==` also equates two distinct numeric strings of equal value ("1" and "01"),
      which this equality does not. */
  datatype Observer = Camera | Enemy(name: string, damage: int)

  /** What an observer's reaction reports on the console, abstracted from its text. */
  datatype Event = Watched | Hit(name: string, damage: int)

  /** Damage an observer deals when it is notified: a camera deals none. */
  function Damage(o: Observer): (d: int)
  {
    match o
    case Camera => 0
    case Enemy(_, d) => d
  }

  /** The event an observer reports when it is notified. */
  function EventOf(o: Observer): (e: Event)
  {
    match o
    case Camera => Watched
    case Enemy(n, d) => Hit(n, d)
  }

  /** Total damage one round of notification deals: the enemies' damage, summed in list order. */
  function TotalDamage(obs: seq<Observer>): (total: int)
  {
    if obs == [] then 0 else Damage(obs[0]) + TotalDamage(obs[1..])
  }

  /** The events one round of notification reports, one per entry, in list order. */
  function Trace(obs: seq<Observer>): (r: seq<Event>)
    ensures |r| == |obs|
  {
    if obs == [] then [] else [EventOf(obs[0])] + Trace(obs[1..])
  }

  /** The registry after removing the first entry equal to `o`, if there is one. */
  function RemoveFirst(obs: seq<Observer>, o: Observer): (r: seq<Observer>)
    ensures |r| == if o in obs then |obs| - 1 else |obs|
  {
    if obs == [] then []
    else if obs[0] == o then obs[1..]
    else [obs[0]] + RemoveFirst(obs[1..], o)
  }

  /** Removing `o` deletes exactly the entry at its first position `i`: the entries
      before it and after it, later copies of `o` included, keep their order. */
  lemma {:induction false} RemoveFirstAt(obs: seq<Observer>, o: Observer, i: nat)
    requires i < |obs| && obs[i] == o && o !in obs[..i]
    ensures RemoveFirst(obs, o) == obs[..i] + obs[i + 1..]
  {
    if i > 0 {
      assert obs[0] in obs[..i];
      assert obs[1..][..i - 1] == obs[1..i];
      RemoveFirstAt(obs[1..], o, i - 1);
      assert obs[..i] == [obs[0]] + obs[1..][..i - 1];
    }
  }

  /** Removing an observer that is not registered leaves the registry as it was. */
  lemma {:induction false} RemoveFirstAbsent(obs: seq<Observer>, o: Observer)
    requires o !in obs
    ensures RemoveFirst(obs, o) == obs
  {
    if obs != [] {
      assert obs[0] in obs;
      assert forall x :: x in obs[1..] ==> x in obs;
      RemoveFirstAbsent(obs[1..], o);
    }
  }

  /** Removal takes away one copy of `o` when there is one, and nothing else. */
  lemma {:induction false} RemoveFirstMultiset(obs: seq<Observer>, o: Observer)
    ensures multiset(RemoveFirst(obs, o)) == multiset(obs) - multiset{o}
  {
    if obs != [] {
      assert obs == [obs[0]] + obs[1..];
      if obs[0] != o {
        RemoveFirstMultiset(obs[1..], o);
      }
    }
  }

  /** Removing an observer right after adding it to a registry that did not hold it
      gives the registry back. */
  lemma {:induction false} RemoveAfterAdd(obs: seq<Observer>, o: Observer)
    requires o !in obs
    ensures RemoveFirst(obs + [o], o) == obs
  {
    assert (obs + [o])[|obs|] == o;
    assert (obs + [o])[..|obs|] == obs;
    RemoveFirstAt(obs + [o], o, |obs|);
  }

  /** Adding an observer when `o` is already registered leaves the first copy as the
      one removal takes: the new entry survives at the end. */
  lemma {:induction false} RemoveFirstAppend(obs: seq<Observer>, o: Observer, x: Observer)
    requires o in obs
    ensures RemoveFirst(obs + [x], o) == RemoveFirst(obs, o) + [x]
  {
    if obs[0] != o {
      assert (obs + [x])[1..] == obs[1..] + [x];
      assert o in obs[1..] by {
        var k :| 0 <= k < |obs| && obs[k] == o;
        assert obs[1..][k - 1] == o;
      }
      RemoveFirstAppend(obs[1..], o, x);
    }
  }

  /** The damage of a round splits over a registry cut in two. */
  lemma {:induction false} TotalDamageAppend(a: seq<Observer>, b: seq<Observer>)
    ensures TotalDamage(a + b) == TotalDamage(a) + TotalDamage(b)
  {
    if a != [] {
      assert (a + b)[1..] == a[1..] + b;
      TotalDamageAppend(a[1..], b);
    } else {
      assert a + b == b;
    }
  }

  /** Registering one more observer adds its damage to every later round:
      an enemy's fixed damage, nothing for a camera. */
  lemma AddObserverDamage(obs: seq<Observer>, o: Observer)
    ensures TotalDamage(obs + [o]) == TotalDamage(obs) + (if o.Enemy? then o.damage else 0)
  {
    TotalDamageAppend(obs, [o]);
  }

  /** Unregistering an observer takes its damage out of every later round. */
  lemma {:induction false} RemoveObserverDamage(obs: seq<Observer>, o: Observer)
    ensures TotalDamage(RemoveFirst(obs, o)) == TotalDamage(obs) - (if o in obs then Damage(o) else 0)
  {
    if obs != [] && obs[0] != o {
      RemoveObserverDamage(obs[1..], o);
      assert o in obs <==> o in obs[1..];
    }
  }

  /** The reported events of a registry cut in two are those of the two parts, in order. */
  lemma {:induction false} TraceAppend(a: seq<Observer>, b: seq<Observer>)
    ensures Trace(a + b) == Trace(a) + Trace(b)
  {
    if a != [] {
      assert (a + b)[1..] == a[1..] + b;
      TraceAppend(a[1..], b);
    } else {
      assert a + b == b;
    }
  }

  /** A round reports one event per entry, the `k`-th event coming from the `k`-th entry:
      a hit with the enemy's name and damage, or a camera's watch. */
  lemma {:induction false} TraceAt(obs: seq<Observer>, k: nat)
    requires k < |obs|
    ensures Trace(obs)[k] == match obs[k]
                             case Camera => Watched
                             case Enemy(n, d) => Hit(n, d)
  {
    if k > 0 {
      TraceAt(obs[1..], k - 1);
    } else if |obs| > 1 {
      TraceAt(obs[1..], 0);
    }
  }
}
