/**
 * The shared cell of src/cell.rs: a strong handle onto one mutable value held
 * in reference-counted storage, and a weak observer of that storage.
 *
 * Several `Cell` objects may point at one `Storage`; a write through any of
 * them is a write to that storage. The storage keeps the strong count that
 * `Rc` keeps at run time, and a ghost set naming the live strong handles, so
 * that the count can be tied to the handles that hold it.
 */
module Cells {
  import opened Wrappers

  /** The reference-counted allocation behind every handle (`Rc<UnsafeCell<T>>`). */
  class Storage<T> {
    var value: T
    /** Number of live strong handles, as `Rc` counts them. */
    var strong: nat
    /** The live strong handles themselves. */
    ghost var handles: set<object>

    ghost predicate Valid()
      reads this
    {
      strong == |handles|
    }

    /** Storage that no handle holds yet. */
    constructor (v: T)
      ensures value == v && strong == 0 && handles == {}
      ensures Valid()
    {
      value := v;
      strong := 0;
      handles := {};
    }

    /** True while some strong handle keeps the value alive. */
    predicate Alive()
      reads this
      requires Valid()
    {
      strong != 0
    }
  }

  /** A strong handle (`Cell<T>`). */
  class Cell<T> {
    const inner: Storage<T>

    /** This handle is live and the storage's count is consistent. */
    ghost predicate Valid()
      reads inner
    {
      this in inner.handles && inner.Valid()
    }

    /** `Cell::new`: fresh storage holding `v`, held by this one handle. */
    constructor New(v: T)
      ensures Valid() && fresh(inner)
      ensures inner.value == v && inner.handles == {this} && inner.strong == 1
    {
      inner := new Storage(v);
      new;
      inner.handles := {this};
      inner.strong := 1;
    }

    /**
     * A new strong handle onto existing storage (the `Cell { inner }`
     * literal of `clone` and `upgrade`): it joins the storage's handles. The
     * literal needs an `Rc` in hand, so the storage already has a live strong
     * handle; a dead value cannot be revived.
     */
    constructor Share(s: Storage<T>)
      requires s.Valid() && s.Alive()
      modifies s
      ensures Valid() && inner == s
      ensures s.value == old(s.value)
      ensures s.handles == old(s.handles) + {this} && s.strong == old(s.strong) + 1
    {
      inner := s;
      new;
      s.handles := s.handles + {this};
      s.strong := s.strong + 1;
    }

    /** `clone`: a second handle aliasing the same storage, not a copy of the value. */
    method Clone() returns (c: Cell<T>)
      requires Valid()
      modifies inner
      ensures fresh(c) && c.inner == inner
      ensures Valid() && c.Valid()
      ensures inner.value == old(inner.value)
      ensures inner.handles == old(inner.handles) + {c} && inner.strong == old(inner.strong) + 1
    {
      c := new Cell.Share(inner);
    }

    /** `get_ref`: the shared value. */
    function GetRef(): T
      reads inner
      requires Valid()
    {
      inner.value
    }

    /** `Deref`: the same value as `get_ref`, by definition. */
    function Deref(): T
      reads inner
      requires Valid()
    {
      GetRef()
    }

    /**
     * `get_mut`: the caller obtains the unique mutable borrow and replaces the
     * value by `f` of it. The storage is shared, so every live handle onto it
     * reads the new value.
     */
    method GetMut(f: T -> T)
      requires Valid()
      modifies inner`value
      ensures Valid() && inner.value == f(old(inner.value))
      ensures forall h: Cell<T> :: h.inner == inner && h.Valid() ==> h.GetRef() == f(old(inner.value))
    {
      inner.value := f(inner.value);
    }

    /** `downgrade`: a weak observer of the same storage; nothing else changes. */
    method Downgrade() returns (w: WeakCell<T>)
      requires Valid()
      ensures fresh(w) && w.inner == inner
    {
      w := new WeakCell(inner);
    }

    /** Dropping this handle: its share of the strong count goes away. */
    method Drop()
      requires Valid()
      modifies inner`strong, inner`handles
      ensures inner.Valid()
      ensures inner.handles == old(inner.handles) - {this}
      ensures inner.strong == old(inner.strong) - 1
    {
      inner.handles := inner.handles - {this};
      inner.strong := inner.strong - 1;
    }
  }

  /** A weak observer (`WeakCell<T>`): it never keeps the value alive. */
  class WeakCell<T> {
    const inner: Storage<T>

    constructor (s: Storage<T>)
      ensures inner == s
    {
      inner := s;
    }

    /**
     * `upgrade`: a new strong handle onto the same storage while some strong
     * handle is live; otherwise `None`, and nothing changes.
     */
    method Upgrade() returns (c: Option<Cell<T>>)
      requires inner.Valid()
      modifies inner
      ensures inner.Valid() && inner.value == old(inner.value)
      ensures c.None? <==> old(inner.handles) == {}
      ensures c.None? ==> inner.handles == old(inner.handles) && inner.strong == old(inner.strong)
      ensures c.Some? ==> fresh(c.value) && c.value.inner == inner && c.value.Valid()
      ensures c.Some? ==> inner.handles == old(inner.handles) + {c.value}
    {
      if inner.Alive() {
        var h := new Cell.Share(inner);
        c := Some(h);
      } else {
        c := None;
      }
    }
  }

  /**
   * Handles on real objects: a write through a clone is seen through the
   * original; a weak observer upgrades while a strong handle is live and
   * fails once every strong handle has been dropped.
   */
  method SharedLifetime(v: int, w: int) returns (seen: int, upgradedWhileLive: bool, upgradedAfterDrop: bool)
    ensures seen == w
    ensures upgradedWhileLive && !upgradedAfterDrop
  {
    var original := new Cell.New(v);
    var copy := original.Clone();
    copy.GetMut(_ => w);
    seen := original.GetRef();
    var weak := original.Downgrade();
    var up := weak.Upgrade();
    upgradedWhileLive := up.Some?;
    up.value.Drop();
    copy.Drop();
    original.Drop();
    var late := weak.Upgrade();
    upgradedAfterDrop := late.Some?;
  }
}
