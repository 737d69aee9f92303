/**
 * Products and their product -> component edges (bom_products), which the material
 * explosion reads: creation with the edges, the image set after the commit, and deletion.
 */
module Products {
  import opened Common
  import opened Schema
  import opened Placeholders

  const AlreadyExists := "Product already exists"
  const CreateFailed := "Failed to create product"
  const NotFoundMessage := "Product not found"
  const DeleteFailed := "Failed to delete product"
  const DeletedMessage := "Product deleted successfully"

  /** findOneById: the first product with that id. */
  function FindProduct(ps: seq<Product>, id: Id): (r: Option<Product>)
    ensures r.Some? ==> r.value.id == id
  {
    if ps == [] then None else if ps[0].id == id then Some(ps[0]) else FindProduct(ps[1..], id)
  }

  /** findOneById finds nothing exactly when no product has the id. */
  lemma {:induction false} FindProductNone(ps: seq<Product>, id: Id)
    ensures FindProduct(ps, id).None? <==> forall i :: 0 <= i < |ps| ==> ps[i].id != id
  {
    if ps != [] {
      FindProductNone(ps[1..], id);
      assert forall i :: 1 <= i < |ps| ==> ps[i] == ps[1..][i - 1];
    }
  }

  /** findOneByName finds a row. */
  predicate NameTaken(ps: seq<Product>, name: string)
  {
    ps != [] && (ps[0].name == name || NameTaken(ps[1..], name))
  }

  /** DELETE FROM products WHERE id. */
  function ProductsWithout(ps: seq<Product>, id: Id): (r: seq<Product>)
    ensures |r| <= |ps|
  {
    if ps == [] then [] else (if ps[0].id == id then [] else [ps[0]]) + ProductsWithout(ps[1..], id)
  }

  /** DELETE FROM bom_products WHERE product_id. */
  function EdgesWithout(es: seq<BomProduct>, productId: Id): (r: seq<BomProduct>)
    ensures |r| <= |es|
  {
    if es == [] then [] else (if es[0].productId == productId then [] else [es[0]]) + EdgesWithout(es[1..], productId)
  }

  /** UPDATE products SET img WHERE id. */
  function WithImage(ps: seq<Product>, id: Id, img: string): (r: seq<Product>)
    ensures |r| == |ps|
  {
    if ps == [] then [] else [if ps[0].id == id then ps[0].(img := Some(img)) else ps[0]] + WithImage(ps[1..], id, img)
  }

  lemma {:induction false} ProductsWithoutSpec(ps: seq<Product>, id: Id, p: Product)
    ensures p in ProductsWithout(ps, id) <==> p in ps && p.id != id
  {
    if ps != [] {
      ProductsWithoutSpec(ps[1..], id, p);
      assert ps == [ps[0]] + ps[1..];
    }
  }

  lemma {:induction false} EdgesWithoutSpec(es: seq<BomProduct>, productId: Id, e: BomProduct)
    ensures e in EdgesWithout(es, productId) <==> e in es && e.productId != productId
  {
    if es != [] {
      EdgesWithoutSpec(es[1..], productId, e);
      assert es == [es[0]] + es[1..];
    }
  }

  lemma {:induction false} FindProductAppend(ps: seq<Product>, p: Product)
    requires FindProduct(ps, p.id).None?
    ensures FindProduct(ps + [p], p.id) == Some(p)
  {
    if ps != [] {
      assert (ps + [p])[1..] == ps[1..] + [p];
      FindProductAppend(ps[1..], p);
    }
  }

  lemma {:induction false} WithImageFind(ps: seq<Product>, id: Id, img: string)
    ensures FindProduct(WithImage(ps, id, img), id) == if FindProduct(ps, id).None? then None else Some(FindProduct(ps, id).value.(img := Some(img)))
  {
    if ps != [] {
      WithImageFind(ps[1..], id, img);
    }
  }

  /** One element of the request's component list: the component and the colour materials it is made in. */
  datatype ComponentItem = ComponentItem(id: Id, primaryColor: Id, patternColor: Id)

  /** The edges insertBOMProducts writes: one per item, in input order, each with a fresh id. */
  function NewEdges(productId: Id, items: seq<ComponentItem>, edgeIds: seq<Id>): (r: seq<BomProduct>)
    requires |edgeIds| >= |items|
    ensures |r| == |items|
  {
    if items == [] then []
    else [BomProduct(edgeIds[0], productId, items[0].id, Some(items[0].primaryColor), Some(items[0].patternColor))]
         + NewEdges(productId, items[1..], edgeIds[1..])
  }

  /** The values of edge i, in column order (id, product_id, component_id, primary_color, pattern_color). */
  function EdgeValues(productId: Id, item: ComponentItem, edgeId: Id): seq<Param>
  {
    [PText(edgeId), PText(productId), PText(item.id), PText(item.primaryColor), PText(item.patternColor)]
  }

  function EdgeRows(productId: Id, items: seq<ComponentItem>, edgeIds: seq<Id>): (r: seq<seq<Param>>)
    requires |edgeIds| >= |items|
    ensures |r| == |items|
  {
    if items == [] then [] else [EdgeValues(productId, items[0], edgeIds[0])] + EdgeRows(productId, items[1..], edgeIds[1..])
  }

  /** The columns (id, product_id, component_id, primary_color, pattern_color) of an edge. */
  function EdgeColumns(e: BomProduct): seq<Param>
  {
    [PText(e.id), PText(e.productId), PText(e.componentId), TextOrNull(e.primaryColor), TextOrNull(e.patternColor)]
  }

  lemma {:induction false} EdgeRowsAt(productId: Id, items: seq<ComponentItem>, edgeIds: seq<Id>, i: nat)
    requires |edgeIds| >= |items| && i < |items|
    ensures EdgeRows(productId, items, edgeIds)[i] == EdgeValues(productId, items[i], edgeIds[i])
    ensures NewEdges(productId, items, edgeIds)[i]
         == BomProduct(edgeIds[i], productId, items[i].id, Some(items[i].primaryColor), Some(items[i].patternColor))
  {
    if i > 0 {
      EdgeRowsAt(productId, items[1..], edgeIds[1..], i - 1);
    }
  }

  lemma {:induction false} EdgeRowsRectangular(productId: Id, items: seq<ComponentItem>, edgeIds: seq<Id>)
    requires |edgeIds| >= |items|
    ensures Rectangular(EdgeRows(productId, items, edgeIds), 5)
  {
    if items != [] {
      EdgeRowsRectangular(productId, items[1..], edgeIds[1..]);
    }
  }

  /**
   * insertBOMProducts binds each edge: tuple i is ($(5i+1), ..., $(5i+5)), there are 5n
   * parameters, and tuple i names the five columns of edge i.
   */
  lemma EdgeBinding(productId: Id, items: seq<ComponentItem>, edgeIds: seq<Id>, i: nat, k: nat)
    requires |edgeIds| >= |items| && i < |items| && k < 5
    ensures Tuples(|items|, false, 5)[i] == [5 * i + 1, 5 * i + 2, 5 * i + 3, 5 * i + 4, 5 * i + 5]
    ensures |Params([], EdgeRows(productId, items, edgeIds))| == 5 * |items|
    ensures Params([], EdgeRows(productId, items, edgeIds))[Tuples(|items|, false, 5)[i][k] - 1]
         == EdgeColumns(NewEdges(productId, items, edgeIds)[i])[k]
  {
    assert Tuples(|items|, false, 5)[i] == [5 * i + 1, 5 * i + 2, 5 * i + 3, 5 * i + 4, 5 * i + 5] by {
      var t := Tuple(i, false, 5);
      assert Tuples(|items|, false, 5)[i] == t;
      assert t == seq(5, c requires 0 <= c < 5 => 5 * i + c + 1);
      assert t[0] == 5 * i + 1 && t[1] == 5 * i + 2 && t[2] == 5 * i + 3 && t[3] == 5 * i + 4 && t[4] == 5 * i + 5;
    }
    EdgeRowsRectangular(productId, items, edgeIds);
    EdgeRowsAt(productId, items, edgeIds, i);
    assert EdgeColumns(NewEdges(productId, items, edgeIds)[i]) == EdgeRows(productId, items, edgeIds)[i];
    BindingCorrect([], EdgeRows(productId, items, edgeIds), false, 5, i, k);
  }

  /** The edges create writes: none for an absent or empty list. */
  function EdgesFor(productId: Id, components: Option<seq<ComponentItem>>, edgeIds: seq<Id>): (r: seq<BomProduct>)
    requires components.Some? ==> |edgeIds| >= |components.value|
    ensures components.None? || components.value == [] ==> r == []
  {
    if components.None? || components.value == [] then [] else NewEdges(productId, components.value, edgeIds)
  }

  /**
   * create: BAD_REQUEST for a name in use, before any write. Otherwise inserts the product
   * and its edges and commits; a rejected statement rolls both back. The image is uploaded
   * and set after the commit, so a failed upload is reported as INTERNAL_SERVER_ERROR while
   * the product and its edges stay.
   */
  method Create(db: Db, categoryId: Id, name: string, price: int, detail: string,
                components: Option<seq<ComponentItem>>, productId: Id, edgeIds: seq<Id>,
                upload: Option<StorageOutcome>, storeFailure: Option<string>) returns (res: Result<Product>)
    requires components.Some? ==> |edgeIds| >= |components.value|
    requires FindProduct(db.products, productId).None?
    modifies db`products, db`bomProducts
    ensures NameTaken(old(db.products), name) ==>
      res == Err(BadRequest(AlreadyExists)) && db.products == old(db.products) && db.bomProducts == old(db.bomProducts)
    ensures !NameTaken(old(db.products), name) && storeFailure.Some? ==>
      res == Err(InternalServerError(CreateFailed)) && db.products == old(db.products) && db.bomProducts == old(db.bomProducts)
    ensures !NameTaken(old(db.products), name) && storeFailure.None? ==>
      var product := Product(productId, categoryId, name, price, detail, None, None);
      db.bomProducts == old(db.bomProducts) + EdgesFor(productId, components, edgeIds)
      && (upload.None? ==> db.products == old(db.products) + [product] && res == Ok(product))
      && (upload.Some? && upload.value.StorageFailed? ==>
            db.products == old(db.products) + [product] && res == Err(InternalServerError(CreateFailed)))
      && (upload.Some? && upload.value.Stored? ==>
            db.products == WithImage(old(db.products) + [product], productId, upload.value.filename)
            && res == Ok(product.(img := Some(upload.value.filename))))
  {
    if NameTaken(db.products, name) {
      return Err(BadRequest(AlreadyExists));
    }
    if storeFailure.Some? {
      return Err(InternalServerError(CreateFailed));
    }
    var product := Product(productId, categoryId, name, price, detail, None, None);
    FindProductAppend(db.products, product);
    db.products := db.products + [product];
    db.bomProducts := db.bomProducts + EdgesFor(productId, components, edgeIds);
    if upload.Some? {
      if upload.value.StorageFailed? {
        return Err(InternalServerError(CreateFailed));
      }
      WithImageFind(db.products, productId, upload.value.filename);
      db.products := WithImage(db.products, productId, upload.value.filename);
    }
    res := Ok(FindProduct(db.products, productId).value);
  }

  /** What deleteById returns. */
  datatype ProductDeleted = ProductDeleted(message: string, deletedProduct: Product)

  /** `if (existingProduct.img)`: a product with a stored image. */
  predicate HasImage(p: Product)
  {
    p.img.Some? && p.img.value != ""
  }

  /**
   * deleteById: NOT_FOUND for an unknown id; otherwise deletes the product's edges, its
   * stored image and the product, then commits. A failed image deletion rolls back and is
   * passed on as it is; any other rejected statement rolls back with INTERNAL_SERVER_ERROR.
   */
  method DeleteById(db: Db, id: Id, fileDeletion: Option<Failure>, storeFailure: Option<string>) returns (res: Result<ProductDeleted>)
    modifies db`products, db`bomProducts
    ensures FindProduct(old(db.products), id).None? ==>
      res == Err(NotFound(NotFoundMessage)) && db.products == old(db.products) && db.bomProducts == old(db.bomProducts)
    ensures FindProduct(old(db.products), id).Some? && HasImage(FindProduct(old(db.products), id).value) && fileDeletion.Some? ==>
      res == Err(fileDeletion.value) && db.products == old(db.products) && db.bomProducts == old(db.bomProducts)
    ensures FindProduct(old(db.products), id).Some? && !(HasImage(FindProduct(old(db.products), id).value) && fileDeletion.Some?) ==>
      if storeFailure.Some? then
        res == Err(InternalServerError(DeleteFailed)) && db.products == old(db.products) && db.bomProducts == old(db.bomProducts)
      else
        res == Ok(ProductDeleted(DeletedMessage, FindProduct(old(db.products), id).value))
        && db.products == ProductsWithout(old(db.products), id)
        && db.bomProducts == EdgesWithout(old(db.bomProducts), id)
  {
    var existing := FindProduct(db.products, id);
    if existing.None? {
      return Err(NotFound(NotFoundMessage));
    }
    if HasImage(existing.value) && fileDeletion.Some? {
      return Err(fileDeletion.value);
    }
    if storeFailure.Some? {
      return Err(InternalServerError(DeleteFailed));
    }
    db.bomProducts := EdgesWithout(db.bomProducts, id);
    db.products := ProductsWithout(db.products, id);
    res := Ok(ProductDeleted(DeletedMessage, existing.value));
  }
}
