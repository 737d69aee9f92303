/**
 * Components and their component -> material edges (bom_components), which the material
 * explosion reads: creation with the edges and the image inside one commit, and the image
 * update.
 */
module Components {
  import opened Common
  import opened Schema
  import opened Placeholders

  const AlreadyExists := "Component already exists"
  const CreateFailed := "Failed to create component"
  /** updateImg's not-found message, as the service words it. */
  const NotFoundMessage := "Category not found"

  /** What findOneById selects. */
  datatype ComponentInfo = ComponentInfo(id: Id, categoryId: Id, name: string, price: int, img: Option<string>)

  function Info(c: Component): ComponentInfo
  {
    ComponentInfo(c.id, c.categoryId, c.name, c.price, c.img)
  }

  /** findOneById: the first component with that id. */
  function FindComponent(cs: seq<Component>, id: Id): (r: Option<ComponentInfo>)
    ensures r.Some? ==> r.value.id == id
  {
    if cs == [] then None else if cs[0].id == id then Some(Info(cs[0])) else FindComponent(cs[1..], id)
  }

  /** findOneById finds nothing exactly when no component has the id. */
  lemma {:induction false} FindComponentNone(cs: seq<Component>, id: Id)
    ensures FindComponent(cs, id).None? <==> forall i :: 0 <= i < |cs| ==> cs[i].id != id
  {
    if cs != [] {
      FindComponentNone(cs[1..], id);
      assert forall i :: 1 <= i < |cs| ==> cs[i] == cs[1..][i - 1];
    }
  }

  /** findOneByName finds a row. */
  predicate NameTaken(cs: seq<Component>, name: string)
  {
    cs != [] && (cs[0].name == name || NameTaken(cs[1..], name))
  }

  /** UPDATE components SET img WHERE id. */
  function WithImage(cs: seq<Component>, id: Id, img: string): (r: seq<Component>)
    ensures |r| == |cs|
  {
    if cs == [] then [] else [if cs[0].id == id then cs[0].(img := Some(img)) else cs[0]] + WithImage(cs[1..], id, img)
  }

  lemma {:induction false} FindComponentAppend(cs: seq<Component>, c: Component)
    requires FindComponent(cs, c.id).None?
    ensures FindComponent(cs + [c], c.id) == Some(Info(c))
  {
    if cs != [] {
      assert (cs + [c])[1..] == cs[1..] + [c];
      FindComponentAppend(cs[1..], c);
    }
  }

  /** The image update changes the image of the looked-up component and nothing else about it. */
  lemma {:induction false} WithImageFind(cs: seq<Component>, id: Id, img: string, y: Id)
    ensures FindComponent(WithImage(cs, id, img), y)
         == if y == id && FindComponent(cs, id).Some? then Some(FindComponent(cs, id).value.(img := Some(img))) else FindComponent(cs, y)
  {
    if cs != [] {
      WithImageFind(cs[1..], id, img, y);
    }
  }

  /** One element of the request's material list. */
  datatype MaterialItem = MaterialItem(materialId: Id, quantity: int)

  /** The edges insertBomComponents writes: one per item, in input order, each with a fresh id. */
  function NewEdges(componentId: Id, items: seq<MaterialItem>, edgeIds: seq<Id>): (r: seq<BomComponent>)
    requires |edgeIds| >= |items|
    ensures |r| == |items|
  {
    if items == [] then []
    else [BomComponent(edgeIds[0], componentId, items[0].materialId, Some(items[0].quantity))] + NewEdges(componentId, items[1..], edgeIds[1..])
  }

  /** The values of edge i, in column order (id, component_id, material_id, quantity). */
  function EdgeValues(componentId: Id, item: MaterialItem, edgeId: Id): seq<Param>
  {
    [PText(edgeId), PText(componentId), PText(item.materialId), PNum(item.quantity)]
  }

  function EdgeRows(componentId: Id, items: seq<MaterialItem>, edgeIds: seq<Id>): (r: seq<seq<Param>>)
    requires |edgeIds| >= |items|
    ensures |r| == |items|
  {
    if items == [] then [] else [EdgeValues(componentId, items[0], edgeIds[0])] + EdgeRows(componentId, items[1..], edgeIds[1..])
  }

  /** The columns of an edge; a NULL quantity binds as NULL. */
  function EdgeColumns(e: BomComponent): seq<Param>
  {
    [PText(e.id), PText(e.componentId), PText(e.materialId), if e.quantity.Some? then PNum(e.quantity.value) else PNull]
  }

  lemma {:induction false} EdgeRowsAt(componentId: Id, items: seq<MaterialItem>, edgeIds: seq<Id>, i: nat)
    requires |edgeIds| >= |items| && i < |items|
    ensures EdgeRows(componentId, items, edgeIds)[i] == EdgeValues(componentId, items[i], edgeIds[i])
    ensures NewEdges(componentId, items, edgeIds)[i] == BomComponent(edgeIds[i], componentId, items[i].materialId, Some(items[i].quantity))
  {
    if i > 0 {
      EdgeRowsAt(componentId, items[1..], edgeIds[1..], i - 1);
    }
  }

  lemma {:induction false} EdgeRowsRectangular(componentId: Id, items: seq<MaterialItem>, edgeIds: seq<Id>)
    requires |edgeIds| >= |items|
    ensures Rectangular(EdgeRows(componentId, items, edgeIds), 4)
  {
    if items != [] {
      EdgeRowsRectangular(componentId, items[1..], edgeIds[1..]);
    }
  }

  /**
   * insertBomComponents binds each edge: tuple i is ($(4i+1), ..., $(4i+4)), there are 4n
   * parameters, and tuple i names the four columns of edge i.
   */
  lemma EdgeBinding(componentId: Id, items: seq<MaterialItem>, edgeIds: seq<Id>, i: nat, k: nat)
    requires |edgeIds| >= |items| && i < |items| && k < 4
    ensures Tuples(|items|, false, 4)[i] == [4 * i + 1, 4 * i + 2, 4 * i + 3, 4 * i + 4]
    ensures |Params([], EdgeRows(componentId, items, edgeIds))| == 4 * |items|
    ensures Params([], EdgeRows(componentId, items, edgeIds))[Tuples(|items|, false, 4)[i][k] - 1]
         == EdgeColumns(NewEdges(componentId, items, edgeIds)[i])[k]
  {
    assert Tuples(|items|, false, 4)[i] == [4 * i + 1, 4 * i + 2, 4 * i + 3, 4 * i + 4] by {
      var t := Tuple(i, false, 4);
      assert Tuples(|items|, false, 4)[i] == t;
      assert t == seq(4, c requires 0 <= c < 4 => 4 * i + c + 1);
      assert t[0] == 4 * i + 1 && t[1] == 4 * i + 2 && t[2] == 4 * i + 3 && t[3] == 4 * i + 4;
    }
    EdgeRowsRectangular(componentId, items, edgeIds);
    EdgeRowsAt(componentId, items, edgeIds, i);
    assert EdgeColumns(NewEdges(componentId, items, edgeIds)[i]) == EdgeRows(componentId, items, edgeIds)[i];
    BindingCorrect([], EdgeRows(componentId, items, edgeIds), false, 4, i, k);
  }

  /** The edges create writes: none for an absent or empty list. */
  function EdgesFor(componentId: Id, materials: Option<seq<MaterialItem>>, edgeIds: seq<Id>): (r: seq<BomComponent>)
    requires materials.Some? ==> |edgeIds| >= |materials.value|
    ensures materials.None? || materials.value == [] ==> r == []
  {
    if materials.None? || materials.value == [] then [] else NewEdges(componentId, materials.value, edgeIds)
  }

  /**
   * create: BAD_REQUEST for a name in use, before any write. Otherwise inserts the component,
   * its edges and (when a file comes with it) its image, then commits; a failed upload or a
   * rejected statement rolls all of it back with INTERNAL_SERVER_ERROR.
   */
  method Create(db: Db, categoryId: Id, name: string, price: int, materials: Option<seq<MaterialItem>>,
                id: Id, edgeIds: seq<Id>, upload: Option<StorageOutcome>, storeFailure: Option<string>)
    returns (res: Result<ComponentInfo>)
    requires materials.Some? ==> |edgeIds| >= |materials.value|
    requires FindComponent(db.components, id).None?
    modifies db`components, db`bomComponents
    ensures NameTaken(old(db.components), name) ==>
      res == Err(BadRequest(AlreadyExists)) && db.components == old(db.components) && db.bomComponents == old(db.bomComponents)
    ensures !NameTaken(old(db.components), name) && (storeFailure.Some? || (upload.Some? && upload.value.StorageFailed?)) ==>
      res == Err(InternalServerError(CreateFailed)) && db.components == old(db.components) && db.bomComponents == old(db.bomComponents)
    ensures !NameTaken(old(db.components), name) && storeFailure.None? && !(upload.Some? && upload.value.StorageFailed?) ==>
      var component := Component(id, categoryId, name, price, None, None, None);
      db.bomComponents == old(db.bomComponents) + EdgesFor(id, materials, edgeIds)
      && (upload.None? ==> db.components == old(db.components) + [component] && res == Ok(Info(component)))
      && (upload.Some? ==>
            db.components == WithImage(old(db.components) + [component], id, upload.value.filename)
            && res == Ok(Info(component).(img := Some(upload.value.filename))))
  {
    if NameTaken(db.components, name) {
      return Err(BadRequest(AlreadyExists));
    }
    if storeFailure.Some? || (upload.Some? && upload.value.StorageFailed?) {
      return Err(InternalServerError(CreateFailed));
    }
    var component := Component(id, categoryId, name, price, None, None, None);
    FindComponentAppend(db.components, component);
    db.components := db.components + [component];
    db.bomComponents := db.bomComponents + EdgesFor(id, materials, edgeIds);
    if upload.Some? {
      WithImageFind(db.components, id, upload.value.filename, id);
      var updated := UpdateImg(db, id, upload.value);
    }
    res := Ok(FindComponent(db.components, id).value);
  }

  /**
   * updateImg: NOT_FOUND (worded "Category not found") for an unknown component; otherwise
   * uploads the file, passing a failed upload on as it is, and sets the image.
   */
  method UpdateImg(db: Db, id: Id, upload: StorageOutcome) returns (res: Result<ComponentInfo>)
    modifies db`components
    ensures FindComponent(old(db.components), id).None? ==>
      res == Err(NotFound(NotFoundMessage)) && db.components == old(db.components)
    ensures FindComponent(old(db.components), id).Some? && upload.StorageFailed? ==>
      res == Err(upload.failure) && db.components == old(db.components)
    ensures FindComponent(old(db.components), id).Some? && upload.Stored? ==>
      db.components == WithImage(old(db.components), id, upload.filename)
      && res == Ok(FindComponent(old(db.components), id).value.(img := Some(upload.filename)))
  {
    var existing := FindComponent(db.components, id);
    if existing.None? {
      return Err(NotFound(NotFoundMessage));
    }
    if upload.StorageFailed? {
      return Err(upload.failure);
    }
    WithImageFind(db.components, id, upload.filename, id);
    db.components := WithImage(db.components, id, upload.filename);
    res := Ok(FindComponent(db.components, id).value);
  }
}
