/** Values shared by every plugin model: optional values and references into the
    engine's three item databases. */
module Common {

  /** A value that may be missing (`null`/`undefined` in the engine). */
  datatype Option<T> = None | Some(value: T)

  /** The three item databases: `$dataItems`, `$dataWeapons`, `$dataArmors`. */
  datatype Kind = Item | Weapon | Armor

  /** An inventory key: which database and which record id. */
  datatype ItemKey = ItemKey(kind: Kind, id: int)

  /** The ids that have a record in each database (`$dataItems[id]` is not null). */
  datatype Database = Database(items: set<int>, weapons: set<int>, armors: set<int>)

  function Records(db: Database, kind: Kind): set<int>
  {
    match kind
    case Item => db.items
    case Weapon => db.weapons
    case Armor => db.armors
  }

  /** `$dataItems[id]` (or weapons, armors): the record, or nothing for an empty slot. */
  function Resolve(db: Database, kind: Kind, id: int): (r: Option<ItemKey>)
    ensures r.Some? <==> id in Records(db, kind)
    ensures r.Some? ==> r.value == ItemKey(kind, id)
  {
    if id in Records(db, kind) then Some(ItemKey(kind, id)) else None
  }

  /** `make` applied to the present entries of `xs` that `keep` accepts, in
      order: a loop that skips empty slots and pushes what it builds. */
  function Collect<A, B>(xs: seq<Option<A>>, keep: A -> bool, make: A -> B): seq<B>
  {
    if xs == [] then []
    else
      var last := xs[|xs| - 1];
      Collect(xs[..|xs| - 1], keep, make) + (if last.Some? && keep(last.value) then [make(last.value)] else [])
  }

  lemma {:induction false} CollectAppend<A, B>(a: seq<Option<A>>, b: seq<Option<A>>, keep: A -> bool, make: A -> B)
    ensures Collect(a + b, keep, make) == Collect(a, keep, make) + Collect(b, keep, make)
    decreases |b|
  {
    if b == [] {
      assert a + b == a;
    } else {
      var b0 := b[..|b| - 1];
      assert (a + b)[..|a + b| - 1] == a + b0;
      CollectAppend(a, b0, keep, make);
    }
  }

  lemma {:induction false} CollectContents<A, B>(xs: seq<Option<A>>, keep: A -> bool, make: A -> B)
    ensures |Collect(xs, keep, make)| <= |xs|
    ensures forall y :: y in Collect(xs, keep, make) <==> exists x :: Some(x) in xs && keep(x) && y == make(x)
    decreases |xs|
  {
    if xs != [] {
      var init := xs[..|xs| - 1];
      var last := xs[|xs| - 1];
      CollectContents(init, keep, make);
      assert xs == init + [last];
      forall y | exists x :: Some(x) in xs && keep(x) && y == make(x)
        ensures y in Collect(xs, keep, make)
      {
        var x :| Some(x) in xs && keep(x) && y == make(x);
        if Some(x) !in init {
          assert last == Some(x);
        }
      }
    }
  }
  /** `f` applied to a present value; nothing stays nothing. */
  function MapSome<A>(x: Option<A>, f: A -> A): Option<A>
  {
    match x
    case None => None
    case Some(v) => Some(f(v))
  }

  /** A pass over a database array that replaces every present slot by `f`
      of its value, in place, and leaves the empty slots alone. */
  method MapPresent<A>(a: array<Option<A>>, f: A -> A)
    modifies a
    ensures forall i :: 0 <= i < a.Length ==> a[i] == MapSome(old(a[i]), f)
  {
    ghost var before := a[..];
    var i := 0;
    while i < a.Length
      invariant 0 <= i <= a.Length
      invariant forall j :: 0 <= j < i ==> a[j] == MapSome(before[j], f)
      invariant forall j :: i <= j < a.Length ==> a[j] == before[j]
    {
      var slot := a[i];
      if slot.Some? {
        a[i] := Some(f(slot.value));
      }
      i := i + 1;
    }
  }
}
