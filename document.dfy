/** The document model of the editor: shapes, their style properties, and the pure
    transforms of the shape list that the editor's handlers apply (`map`, `filter`, `find`). */
module Document {
  import opened Wrappers

  /** Shape identity. The application takes it from the clock; here ids are issued by the
      editor's counter (see App.Editor.nextId). */
  type Id = nat

  datatype Kind = Circle | Rectangle | Triangle | Star

  /** Top-left anchor in canvas pixels; a half-integer is possible (`400 - size/2`). */
  datatype Position = Position(x: real, y: real)

  datatype Props = Props(color: string, size: int, rotation: int, opacity: real)

  /** A partial props object: the fields it carries override, the others are kept. */
  datatype PropsPatch = PropsPatch(color: Option<string>, size: Option<int>,
                                   rotation: Option<int>, opacity: Option<real>)

  datatype Shape = Shape(id: Id, kind: Kind, position: Position, props: Props)

  /** The style a fresh editor gives to the next created shape. */
  const DefaultProps: Props := Props("#3B82F6", 100, 0, 1.0)

  /** The patch that carries every field of `p`. */
  function Whole(p: Props): PropsPatch {
    PropsPatch(Some(p.color), Some(p.size), Some(p.rotation), Some(p.opacity))
  }

  /** The object spread `{ ...p, ...patch }`. */
  function Merge(p: Props, patch: PropsPatch): (r: Props)
    ensures r.color == (if patch.color.Some? then patch.color.value else p.color)
    ensures r.size == (if patch.size.Some? then patch.size.value else p.size)
    ensures r.rotation == (if patch.rotation.Some? then patch.rotation.value else p.rotation)
    ensures r.opacity == (if patch.opacity.Some? then patch.opacity.value else p.opacity)
  {
    Props(patch.color.GetOr(p.color), patch.size.GetOr(p.size),
          patch.rotation.GetOr(p.rotation), patch.opacity.GetOr(p.opacity))
  }

  /** A patch carrying every field replaces the props outright: this is what the properties
      panel does, since it always passes the whole pending style. */
  lemma MergeWhole(p: Props, q: Props)
    ensures Merge(p, Whole(q)) == q
  {
  }

  /** A patch carrying no field leaves the props as they are. */
  lemma MergeEmpty(p: Props)
    ensures Merge(p, PropsPatch(None, None, None, None)) == p
  {
  }

  /** Applying the same patch twice is the same as applying it once. */
  lemma MergeIdempotent(p: Props, patch: PropsPatch)
    ensures Merge(Merge(p, patch), patch) == Merge(p, patch)
  {
  }

  /** No two shapes of the list share an id. */
  ghost predicate UniqueIds(shapes: seq<Shape>) {
    forall i, j :: 0 <= i < j < |shapes| ==> shapes[i].id != shapes[j].id
  }

  /** Every id in the list was issued before the counter reached `next`, and is positive,
      so the handlers' truthiness test `if (selectedShapeId)` holds of every issued id. */
  ghost predicate IdsIssued(shapes: seq<Shape>, next: Id) {
    forall s :: s in shapes ==> 0 < s.id < next
  }

  ghost predicate WellFormed(shapes: seq<Shape>, next: Id) {
    UniqueIds(shapes) && IdsIssued(shapes, next)
  }

  /** `shapes.find(s => s.id === id)`: the first shape with that id, if any. */
  function Find(shapes: seq<Shape>, id: Id): (r: Option<Shape>)
    ensures r.Some? ==> r.value in shapes && r.value.id == id
    ensures r.None? <==> forall k :: 0 <= k < |shapes| ==> shapes[k].id != id
  {
    if shapes == [] then None
    else if shapes[0].id == id then Some(shapes[0])
    else Find(shapes[1..], id)
  }

  /** The lookup returns the first shape carrying the id. */
  lemma {:induction false} FindFirst(shapes: seq<Shape>, k: nat)
    requires k < |shapes|
    requires forall j :: 0 <= j < k ==> shapes[j].id != shapes[k].id
    ensures Find(shapes, shapes[k].id) == Some(shapes[k])
  {
    if k > 0 {
      assert shapes[0].id != shapes[k].id;
      assert shapes[1..][k - 1] == shapes[k];
      FindFirst(shapes[1..], k - 1);
    }
  }

  /** With unique ids the lookup of a present id returns exactly that shape. */
  lemma FindUnique(shapes: seq<Shape>, k: nat)
    requires UniqueIds(shapes) && k < |shapes|
    ensures Find(shapes, shapes[k].id) == Some(shapes[k])
  {
  }

  /** `shapes.map(s => s.id === id ? f(s) : s)`. */
  function Replace(shapes: seq<Shape>, id: Id, f: Shape -> Shape): (r: seq<Shape>)
    ensures |r| == |shapes|
    ensures forall k :: 0 <= k < |shapes| && shapes[k].id != id ==> r[k] == shapes[k]
    ensures forall k :: 0 <= k < |shapes| && shapes[k].id == id ==> r[k] == f(shapes[k])
  {
    if shapes == [] then []
    else [if shapes[0].id == id then f(shapes[0]) else shapes[0]] + Replace(shapes[1..], id, f)
  }

  /** The props merge of `updateShape`: only the props of shapes carrying `id` change. */
  function UpdateProps(shapes: seq<Shape>, id: Id, patch: PropsPatch): (r: seq<Shape>)
    ensures |r| == |shapes|
    ensures forall k :: 0 <= k < |r| ==>
      r[k].id == shapes[k].id && r[k].kind == shapes[k].kind && r[k].position == shapes[k].position
    ensures forall k :: 0 <= k < |r| && shapes[k].id != id ==> r[k].props == shapes[k].props
    ensures forall k :: 0 <= k < |r| && shapes[k].id == id ==> r[k].props == Merge(shapes[k].props, patch)
  {
    Replace(shapes, id, (s: Shape) => s.(props := Merge(s.props, patch)))
  }

  /** The position write of a drag move: only the position of shapes carrying `id` changes. */
  function MoveTo(shapes: seq<Shape>, id: Id, pos: Position): (r: seq<Shape>)
    ensures |r| == |shapes|
    ensures forall k :: 0 <= k < |r| ==>
      r[k].id == shapes[k].id && r[k].kind == shapes[k].kind && r[k].props == shapes[k].props
    ensures forall k :: 0 <= k < |r| && shapes[k].id != id ==> r[k] == shapes[k]
    ensures forall k :: 0 <= k < |r| && shapes[k].id == id ==> r[k].position == pos
  {
    Replace(shapes, id, (s: Shape) => s.(position := pos))
  }

  /** `shapes.filter(s => s.id !== id)`. */
  function Remove(shapes: seq<Shape>, id: Id): (r: seq<Shape>)
    ensures |r| <= |shapes|
    ensures forall s :: s in r ==> s in shapes && s.id != id
    ensures forall k :: 0 <= k < |shapes| && shapes[k].id != id ==> shapes[k] in r
  {
    if shapes == [] then []
    else if shapes[0].id == id then Remove(shapes[1..], id)
    else [shapes[0]] + Remove(shapes[1..], id)
  }

  /** Filtering out an id nobody carries returns the list unchanged. */
  lemma {:induction false} RemoveAbsent(shapes: seq<Shape>, id: Id)
    requires forall k :: 0 <= k < |shapes| ==> shapes[k].id != id
    ensures Remove(shapes, id) == shapes
  {
    if shapes != [] {
      assert shapes[0].id != id;
      assert forall k :: 0 <= k < |shapes[1..]| ==> shapes[1..][k] == shapes[k + 1];
      RemoveAbsent(shapes[1..], id);
      assert shapes == [shapes[0]] + shapes[1..];
    }
  }

  /** The tail of a list with unique ids has unique ids, none equal to the head's. */
  lemma TailUnique(shapes: seq<Shape>)
    requires UniqueIds(shapes) && shapes != []
    ensures UniqueIds(shapes[1..])
    ensures forall j :: 0 <= j < |shapes[1..]| ==> shapes[1..][j].id != shapes[0].id
  {
  }

  /** Filtering out an id the head carries and nobody else does leaves the tail. */
  lemma RemoveHead(shapes: seq<Shape>)
    requires UniqueIds(shapes) && shapes != []
    ensures Remove(shapes, shapes[0].id) == shapes[1..]
  {
    TailUnique(shapes);
    RemoveAbsent(shapes[1..], shapes[0].id);
  }

  /** With unique ids, deleting the id of shape `k` removes that shape alone and keeps the
      order of the others. */
  lemma {:induction false} RemoveAt(shapes: seq<Shape>, k: nat)
    requires UniqueIds(shapes) && k < |shapes|
    ensures Remove(shapes, shapes[k].id) == shapes[..k] + shapes[k + 1..]
  {
    if k == 0 {
      RemoveHead(shapes);
    } else {
      var id := shapes[k].id;
      var tail := shapes[1..];
      TailUnique(shapes);
      assert tail[k - 1] == shapes[k];
      assert shapes[0].id != id;
      assert Remove(shapes, id) == [shapes[0]] + Remove(tail, id);
      RemoveAt(tail, k - 1);
      SplitAfterHead(shapes, k);
    }
  }

  /** Cutting the tail at `k - 1` is cutting the list at `k`. */
  lemma SplitAfterHead<T>(s: seq<T>, k: nat)
    requires 0 < k < |s|
    ensures [s[0]] + (s[1..][..k - 1] + s[1..][k..]) == s[..k] + s[k + 1..]
  {
    assert [s[0]] + s[1..][..k - 1] == s[..k];
    assert s[1..][k..] == s[k + 1..];
  }

  /** Filtering keeps the ids of the remaining shapes unique. */
  lemma {:induction false} RemoveKeepsUnique(shapes: seq<Shape>, id: Id)
    requires UniqueIds(shapes)
    ensures UniqueIds(Remove(shapes, id))
  {
    if shapes != [] {
      var tail := shapes[1..];
      assert forall j :: 0 <= j < |tail| ==> tail[j] == shapes[j + 1];
      RemoveKeepsUnique(tail, id);
      if shapes[0].id != id {
        var r := Remove(tail, id);
        forall j | 0 <= j < |r|
          ensures r[j].id != shapes[0].id
        {
          assert r[j] in tail;
        }
        assert Remove(shapes, id) == [shapes[0]] + r;
      }
    }
  }
}
