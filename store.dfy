/**
 * The component store: the `moveableComponents` sequence of src/App.js and
 * the pure transforms behind `addMoveable` (append), `updateMoveable` (map)
 * and `deleteMoveable` (filter). Ids are arbitrary integers that may repeat;
 * update and delete act on every record carrying the id.
 */
module Store {
  import opened Geometry

  type Id = int

  /** A stored component: its id, its geometry and colour, and the `updateEnd` flag. */
  datatype Moveable = Moveable(id: Id, box: Box, updateEnd: bool)

  /** Some record of `s` carries `id`. */
  predicate HasId(s: seq<Moveable>, id: Id)
  {
    exists i :: 0 <= i < |s| && s[i].id == id
  }

  /**
   * The colour `COLORS[Math.floor(Math.random() * COLORS.length)]`, with the
   * random number in [0, 1) given as `roll`.
   */
  function PickColor(roll: real): (c: Color)
    requires 0.0 <= roll < 1.0
    ensures forall k :: 0 <= k < |Palette| && k as real <= roll * |Palette| as real < (k + 1) as real ==>
                          c == Palette[k]
  {
    Palette[(roll * |Palette| as real).Floor]
  }

  /** The record `addMoveable` appends: a 100 x 100 box at the origin, with `updateEnd` set. */
  function DefaultMoveable(id: Id, color: Color): Moveable
  {
    Moveable(id, Box(0.0, 0.0, 100.0, 100.0, color), true)
  }

  /** A freshly added record lies inside every container of at least 100 x 100. */
  lemma DefaultMoveableFits(id: Id, color: Color, area: Area)
    requires 100.0 <= area.width && 100.0 <= area.height
    ensures Fits(DefaultMoveable(id, color).box, area)
  {
  }

  /** The record `updateMoveable` writes: `checkBounds({id, ...newComponent, updateEnd})`. */
  function Stamp(id: Id, patch: Box, updateEnd: bool, area: Area): Moveable
  {
    Moveable(id, CheckBounds(patch, area), updateEnd)
  }

  /** The sequence after `updateMoveable(id, patch, updateEnd)`: a map over the records. */
  function Updated(s: seq<Moveable>, id: Id, patch: Box, updateEnd: bool, area: Area): (r: seq<Moveable>)
    ensures |r| == |s|
  {
    if s == [] then []
    else [if s[0].id == id then Stamp(id, patch, updateEnd, area) else s[0]]
         + Updated(s[1..], id, patch, updateEnd, area)
  }

  /**
   * Element by element: a record with the id is replaced by the clamped new
   * record, every other record stays as it was, in the same place.
   */
  lemma {:induction false} UpdatedAt(s: seq<Moveable>, id: Id, patch: Box, updateEnd: bool, area: Area, i: int)
    requires 0 <= i < |s|
    ensures Updated(s, id, patch, updateEnd, area)[i]
            == if s[i].id == id then Stamp(id, patch, updateEnd, area) else s[i]
    ensures Updated(s, id, patch, updateEnd, area)[i].id == s[i].id
  {
    if i > 0 {
      UpdatedAt(s[1..], id, patch, updateEnd, area, i - 1);
    }
  }

  /** An update whose id is absent leaves the sequence identical. */
  lemma {:induction false} UpdatedAbsent(s: seq<Moveable>, id: Id, patch: Box, updateEnd: bool, area: Area)
    requires !HasId(s, id)
    ensures Updated(s, id, patch, updateEnd, area) == s
  {
    if s != [] {
      assert s[0].id != id;
      assert !HasId(s[1..], id) by {
        forall i | 0 <= i < |s[1..]| ensures s[1..][i].id != id {
          assert s[1..][i] == s[i + 1];
        }
      }
      UpdatedAbsent(s[1..], id, patch, updateEnd, area);
    }
  }

  /**
   * Each update replaces whole records, so a second update of the same id
   * overrides the first completely; updating twice with the same arguments
   * is the same as updating once.
   */
  lemma {:induction false} UpdatedLastWins(s: seq<Moveable>, id: Id, p1: Box, e1: bool, p2: Box, e2: bool, area: Area)
    ensures Updated(Updated(s, id, p1, e1, area), id, p2, e2, area) == Updated(s, id, p2, e2, area)
  {
    if s != [] {
      UpdatedLastWins(s[1..], id, p1, e1, p2, e2, area);
    }
  }

  /** After an update whose box is not larger than the container, every record with the id fits. */
  lemma UpdatedFits(s: seq<Moveable>, id: Id, patch: Box, updateEnd: bool, area: Area)
    requires patch.width <= area.width && patch.height <= area.height
    ensures forall i :: 0 <= i < |s| && s[i].id == id ==>
                          Fits(Updated(s, id, patch, updateEnd, area)[i].box, area)
  {
    forall i | 0 <= i < |s| && s[i].id == id
      ensures Fits(Updated(s, id, patch, updateEnd, area)[i].box, area)
    {
      UpdatedAt(s, id, patch, updateEnd, area, i);
    }
  }

  /** The sequence after `deleteMoveable(id)`: the records whose id differs, in order. */
  function Deleted(s: seq<Moveable>, id: Id): (r: seq<Moveable>)
    ensures forall m :: m in r <==> m in s && m.id != id
    ensures |r| <= |s|
  {
    if s == [] then []
    else
      assert s == [s[0]] + s[1..];
      (if s[0].id == id then [] else [s[0]]) + Deleted(s[1..], id)
  }

  /** No record with the deleted id is left. */
  lemma DeletedHasNoId(s: seq<Moveable>, id: Id)
    ensures !HasId(Deleted(s, id), id)
  {
    var r := Deleted(s, id);
    forall i | 0 <= i < |r| ensures r[i].id != id {
      assert r[i] in r;
    }
  }

  /** Deleting an absent id leaves the sequence identical. */
  lemma {:induction false} DeletedAbsent(s: seq<Moveable>, id: Id)
    requires !HasId(s, id)
    ensures Deleted(s, id) == s
  {
    if s != [] {
      assert s[0].id != id;
      assert !HasId(s[1..], id) by {
        forall i | 0 <= i < |s[1..]| ensures s[1..][i].id != id {
          assert s[1..][i] == s[i + 1];
        }
      }
      DeletedAbsent(s[1..], id);
    }
  }

  /** Deleting the same id twice is the same as deleting it once. */
  lemma DeletedTwice(s: seq<Moveable>, id: Id)
    ensures Deleted(Deleted(s, id), id) == Deleted(s, id)
  {
    DeletedHasNoId(s, id);
    DeletedAbsent(Deleted(s, id), id);
  }

  /** Delete works piecewise, so the records kept stay in their relative order. */
  lemma {:induction false} DeletedAppend(a: seq<Moveable>, b: seq<Moveable>, id: Id)
    ensures Deleted(a + b, id) == Deleted(a, id) + Deleted(b, id)
  {
    if a == [] {
      assert a + b == b;
    } else {
      assert (a + b)[0] == a[0];
      assert (a + b)[1..] == a[1..] + b;
      DeletedAppend(a[1..], b, id);
    }
  }
}
