# Observer-pattern registry of a game character

A Dafny model of a small PHP demonstration of the Observer pattern. A gamer
(the subject) has a name, a health value that starts at 100, and an ordered
list of observers. Observers are enemies and cameras. When the gamer notifies
its observers, each enemy calls back into the gamer's `takeDamage` with its
fixed damage and reports the hit. A camera only reports that it is watching.

- `registry.dfy`, module `Observers`: the observer variants as a closed
  datatype `Camera | Enemy(name, damage)` and the reported events
  `Watched | Hit(name, damage)`. It also holds the specification functions
  `RemoveFirst`, `TotalDamage` and `Trace`, with the lemmas about them.
- `game.dfy`, module `Game`: the class `Gamer`, whose methods change its
  registry and health in place. It also holds the two observer reactions, and
  the demonstration script as `Driver`.

PHP's `==` on objects compares the class and the property values. The model
compares observers by datatype equality, so an enemy's name must match as an
exact string; see "## Left out" for the one case where PHP's `==` is looser.
The console lines of the two reactions are modelled as an abstract event
trace that `NotifyObservers` returns. The final dump is modelled as the name,
health and registry that `Driver` returns.

The code declares an enemy's damage as a plain `int`, so the model allows
negative damage. A non-negative damage would merely be a convention of the
script.

## Model

| member | source | states |
|---|---|---|
| Game.Gamer.constructor | index.php:127-133 | a new gamer keeps its name, has health 100 and no observers |
| Game.Gamer.AddObserver | index.php:138-141 | the registry becomes the old registry followed by the new observer; health is unchanged |
| Game.Gamer.RemoveObserver | index.php:146-154 | the registry becomes `RemoveFirst` of the old one: one entry fewer when the observer was registered, unchanged otherwise; health is unchanged; the scan's loop invariant is that no earlier entry equals the argument |
| Game.Gamer.NotifyObservers | index.php:159-164 | the registry is unchanged, health drops by exactly the summed damage of the enemies in it, and the reported events are one per entry in registry order |
| Game.Gamer.TakeDamage | index.php:171-174 | health becomes old health minus the damage, with no floor at zero; the registry is unchanged |
| Game.CameraUpdate | index.php:57-60 | a camera reports `Watched` and changes nothing in the gamer |
| Game.EnemyUpdate | index.php:94-99 | an enemy lowers the gamer's health by its damage, leaves the registry alone, and reports a hit with its name and damage |
| Game.SetUpDriver | index.php:177-188 | a fresh gamer named "Игрок" with health 100 and the enemies 1, 2, 3 then a camera registered in order |
| Game.Driver | index.php:177-192 | registering enemies with damage 1, 2, 3 and then a camera, and notifying once, leaves health 94, the registry as registered, and the hits 1, 2, 3 followed by the camera's watch |
| Game.DriverNotifiedTwice | index.php:177-190 | a second notification on the same registry brings health to 88, since nothing records an earlier notification |
| Observers.RemoveFirst | index.php:148-153 | removal shortens the registry by one exactly when the observer is registered |
| Observers.RemoveFirstAt | index.php:148-153 | when the first entry equal to the observer is at index i, removal gives the entries before i followed by those after i, later duplicates included, in order |
| Observers.RemoveFirstAbsent | index.php:148-153 | removing an observer that is not registered leaves the registry unchanged |
| Observers.RemoveFirstMultiset | index.php:148-153 | removal takes away exactly one copy of the observer when there is one and leaves every other entry's count unchanged |
| Observers.RemoveAfterAdd | index.php:138-154 | removing an observer just added to a registry that did not hold it restores the registry |
| Observers.RemoveFirstAppend | index.php:138-154 | when the observer is already registered, removal after adding another entry removes the earlier copy and keeps the new entry at the end |
| Observers.TotalDamageAppend | index.php:159-164 | the damage of one notification round over two concatenated registries is the sum of the two rounds' damage |
| Observers.AddObserverDamage | index.php:138-141 | registering an enemy adds its damage to every later round; registering a camera adds nothing |
| Observers.RemoveObserverDamage | index.php:146-154 | unregistering a registered observer takes its damage out of every later round; unregistering an absent one changes nothing |
| Observers.Trace | index.php:161-163 | a round reports exactly one event per registered entry |
| Observers.TraceAppend | index.php:159-164 | the events of one round over two concatenated registries are the first registry's events followed by the second's |
| Observers.TraceAt | index.php:161-163 | a round reports one event per entry, and the k-th event comes from the k-th entry: a hit with the enemy's name and damage, or a camera's watch |

## Left out

- The exact console text of the two reactions and of the final dump: the model keeps only an abstract trace of events and the dumped values.
- PHP's array keys: `unset` leaves a hole in the keys and `array_push` numbers after the largest key. Only iteration order is observable here, so the registry is a sequence.
- Integer range of health: a health value outside PHP's integer range makes `takeDamage` throw a TypeError, because the property is typed `int`; the model's health is unbounded and has no error path.
- The `SubjectInterface` and `ObserverInterface` interfaces and the namespace: dynamic dispatch becomes a `match` over the closed observer datatype.
- Adding or removing observers during notification: the two observers never do it, so `NotifyObservers` walks a registry that stays fixed.
- Game.Gamer.RemoveObserver: compares enemy names as exact strings, while PHP's `==` also treats two distinct numeric strings of equal value ("1" and "01", "10" and "1e1") as equal; such an enemy is kept where PHP removes it. PHP's numeric-string rules (whitespace, exponents, float precision) are not modelled.
- Observers.RemoveFirst: same restriction as `Game.Gamer.RemoveObserver`: the first entry equal to the argument is found by exact datatype equality, not by PHP's numeric-string comparison of names.
