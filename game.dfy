/** The subject of the Observer pattern, a gamer whose health the registered
    enemies reduce when it notifies them, and the demonstration script. */
module Game {
  import opened Observers

  /** The observed game character. Its registry and health change in place. */
  class Gamer {
    const name: string
    var health: int
    var observers: seq<Observer>

    /** A new gamer starts with full health and nobody watching. */
    constructor (name: string)
      ensures this.name == name
      ensures health == 100 && observers == []
    {
      this.name := name;
      health := 100;
      observers := [];
    }

    /** Registers `o` after every observer already registered; duplicates are allowed. */
    method AddObserver(o: Observer)
      modifies this
      ensures observers == old(observers) + [o]
      ensures health == old(health)
    {
      observers := observers + [o];
    }

    /** Scans the registry in order and unregisters only the first entry equal to `o`;
        an observer that is not registered is ignored. */
    method RemoveObserver(o: Observer)
      modifies this
      ensures observers == RemoveFirst(old(observers), o)
      ensures o in old(observers) ==> |observers| == |old(observers)| - 1
      ensures o !in old(observers) ==> observers == old(observers)
      ensures health == old(health)
    {
      var i := 0;
      while i < |observers|
        invariant i <= |observers|
        invariant observers == old(observers) && health == old(health)
        invariant o !in observers[..i]
      {
        if observers[i] == o {
          RemoveFirstAt(observers, o, i);
          observers := observers[..i] + observers[i + 1..];
          return;
        }
        assert observers[..i + 1] == observers[..i] + [observers[i]];
        i := i + 1;
      }
      assert observers[..i] == observers;
      RemoveFirstAbsent(observers, o);
    }

    /** Notifies every registered observer, in registry order, and returns the events
        their reactions report. Each enemy deals its damage; the registry is untouched. */
    method NotifyObservers() returns (events: seq<Event>)
      modifies this
      ensures observers == old(observers)
      ensures health == old(health) - TotalDamage(observers)
      ensures events == Trace(observers)
    {
      events := [];
      for i := 0 to |observers|
        invariant observers == old(observers)
        invariant health == old(health) - TotalDamage(observers[..i])
        invariant events == Trace(observers[..i])
      {
        var e;
        match observers[i] {
          case Camera =>
            e := CameraUpdate(this);
          case Enemy(n, d) =>
            e := EnemyUpdate(n, d, this);
        }
        assert observers[..i + 1] == observers[..i] + [observers[i]];
        TotalDamageAppend(observers[..i], [observers[i]]);
        TraceAppend(observers[..i], [observers[i]]);
        events := events + [e];
      }
      assert observers[..|observers|] == observers;
    }

    /** Loses `damage` health points; nothing stops health at zero. */
    method TakeDamage(damage: int)
      modifies this
      ensures health == old(health) - damage
      ensures observers == old(observers)
    {
      health := health - damage;
    }
  }

  /** A camera's reaction: it only reports that it is watching, and changes nothing. */
  method CameraUpdate(subject: Gamer) returns (e: Event)
    ensures e == EventOf(Camera)
  {
    e := Watched;
  }

  /** An enemy's reaction: it deals its damage to the gamer, then reports the hit. */
  method EnemyUpdate(name: string, damage: int, subject: Gamer) returns (e: Event)
    modifies subject
    ensures subject.health == old(subject.health) - damage
    ensures subject.observers == old(subject.observers)
    ensures e == EventOf(Enemy(name, damage))
  {
    subject.TakeDamage(damage);
    e := Hit(name, damage);
  }

  /** The script's registry: three enemies with damage 1, 2 and 3, then a camera. */
  function DriverObservers(): (r: seq<Observer>)
  {
    [Enemy("Враг 1", 1), Enemy("Враг 2", 2), Enemy("Враг 3", 3), Camera]
  }

  /** Builds the script's gamer and registers the script's observers in order. */
  method SetUpDriver() returns (g: Gamer)
    ensures fresh(g)
    ensures g.name == "Игрок" && g.health == 100 && g.observers == DriverObservers()
  {
    g := new Gamer("Игрок");
    g.AddObserver(Enemy("Враг 1", 1));
    g.AddObserver(Enemy("Враг 2", 2));
    g.AddObserver(Enemy("Враг 3", 3));
    g.AddObserver(Camera);
  }

  /** The demonstration script: one round of notification; returns what the final
      dump shows (name, health, registry) and the reported events. */
  method Driver() returns (name: string, health: int, observers: seq<Observer>, events: seq<Event>)
    ensures name == "Игрок" && health == 94
    ensures observers == DriverObservers()
    ensures events == [Hit("Враг 1", 1), Hit("Враг 2", 2), Hit("Враг 3", 3), Watched]
  {
    var g := SetUpDriver();
    events := g.NotifyObservers();
    name, health, observers := g.name, g.health, g.observers;
  }

  /** A second round on the same registry deals the same damage again: nothing
      remembers that the observers were already notified. */
  method DriverNotifiedTwice() returns (health: int)
    ensures health == 88
  {
    var g := SetUpDriver();
    var first := g.NotifyObservers();
    var second := g.NotifyObservers();
    health := g.health;
  }
}
