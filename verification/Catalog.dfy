/** The category hierarchy: who may be whose parent, and the walk up the ancestors that keeps it free of cycles. */
module Catalog {
  import opened Common

  datatype CategoryKind = ForExpense | ForIncome | Both

  datatype Category = Category(kind: CategoryKind, parent: Option<nat>, archived: bool, version: nat)

  predicate ParentAccepts(parent: CategoryKind, child: CategoryKind) { parent == Both || parent == child }

  // ---- The hierarchy ----

  /** The foreign key of the parent column. */
  predicate Linked(cs: seq<Category>) {
    forall i :: 0 <= i < |cs| && cs[i].parent.Some? ==> cs[i].parent.value < |cs|
  }

  /** Each category ranks above its parent. */
  ghost predicate Ranked(cs: seq<Category>, rank: seq<nat>) {
    && |rank| == |cs| && Linked(cs)
    && forall i :: 0 <= i < |cs| && cs[i].parent.Some? ==> rank[cs[i].parent.value] < rank[i]
  }

  /** The parent relation has no cycle. */
  ghost predicate Forest(cs: seq<Category>) { exists rank: seq<nat> :: Ranked(cs, rank) }

  /** An active child has an active parent that accepts its kind. */
  predicate WellPlaced(cs: seq<Category>, i: nat)
    requires i < |cs|
  {
    cs[i].parent.Some? && !cs[i].archived ==>
      && cs[i].parent.value < |cs|
      && var parent := cs[cs[i].parent.value]; !parent.archived && ParentAccepts(parent.kind, cs[i].kind)
  }

  ghost predicate Sound(cs: seq<Category>) { Forest(cs) && forall i: nat :: i < |cs| ==> WellPlaced(cs, i) }

  /** The n-th ancestor. */
  function Ancestor(cs: seq<Category>, i: nat, n: nat): Option<nat> {
    if n == 0 then Some(i) else
    match Ancestor(cs, i, n - 1)
    case None => None
    case Some(a) => if a < |cs| then cs[a].parent else None
  }

  /** Category `c` is `i` itself or one of its ancestors. */
  ghost predicate Under(cs: seq<Category>, i: nat, c: nat) { exists n: nat :: Ancestor(cs, i, n) == Some(c) }

  // ---- Validating a parent ----

  /** What the walk decides in a sound hierarchy. */
  ghost function ParentCheck(
      cs: seq<Category>, parent: Option<nat>, kind: CategoryKind, child: Option<nat>)
    : Result<Unit>
  {
    if parent.None? then Ok(Unit) else
    var p := parent.value;
    var _ :- Need(child != Some(p), CategoryParentInvalid);
    var _ :- Need(p < |cs| && !cs[p].archived, CategoryNotFound);
    var _ :- Need(ParentAccepts(cs[p].kind, kind), CategoryKindMismatch);
    Need(child.None? || !Under(cs, p, child.value), CategoryParentInvalid)
  }

  function AllIds(n: nat): (ids: set<nat>)
    ensures forall v: nat :: v in ids <==> v < n
  {
    if n == 0 then {} else AllIds(n - 1) + {n - 1}
  }

  /** The walk up from the parent. It cannot visit a category twice, so it ends after at most as many turns as there are
      categories that it has not seen. */
  method ValidateParent(
      cs: seq<Category>, parent: Option<nat>, kind: CategoryKind, child: Option<nat>)
    returns (r: Result<Unit>)
    requires Forest(cs)
    ensures r == ParentCheck(cs, parent, kind, child)
  {
    if parent.None? {
      return Ok(Unit);
    }
    if parent == child {
      return Err(CategoryParentInvalid);
    }
    var p := parent.value;
    if p >= |cs| || cs[p].archived {
      return Err(CategoryNotFound);
    }
    if !ParentAccepts(cs[p].kind, kind) {
      return Err(CategoryKindMismatch);
    }
    ghost var rank: seq<nat> :| Ranked(cs, rank);
    ghost var n: nat := 0;
    var ancestor := p;
    var visited: set<nat> := {};
    while cs[ancestor].parent.Some?
      invariant ancestor < |cs| && Ancestor(cs, p, n) == Some(ancestor)
      invariant forall v :: v in visited ==> v < |cs| && rank[ancestor] < rank[v]
      invariant child.Some? ==> forall m: nat :: m <= n ==> Ancestor(cs, p, m) != child
      decreases AllIds(|cs|) - visited
    {
      assert ancestor !in visited;
      if ancestor in visited {
        return Err(CategoryParentInvalid);
      }
      visited := visited + {ancestor};
      var next := cs[ancestor].parent.value;
      assert Ancestor(cs, p, n + 1) == Some(next);
      if cs[ancestor].parent == child {
        return Err(CategoryParentInvalid);
      }
      n := n + 1;
      ancestor := next;
    }
    NoAncestorsBeyond(cs, p, n);
    assert child.Some? ==> forall m: nat :: Ancestor(cs, p, m) != child;
    r := Ok(Unit);
  }

  lemma {:induction false} NoneBeyond(cs: seq<Category>, i: nat, n: nat, m: nat)
    requires n < m && Ancestor(cs, i, n + 1).None?
    ensures Ancestor(cs, i, m).None?
  {
    if n + 1 < m {
      NoneBeyond(cs, i, n, m - 1);
    }
  }

  lemma NoAncestorsBeyond(cs: seq<Category>, i: nat, n: nat)
    requires Ancestor(cs, i, n + 1).None?
    ensures forall m: nat :: m > n ==> Ancestor(cs, i, m).None?
  {
    forall m: nat | m > n ensures Ancestor(cs, i, m).None? {
      NoneBeyond(cs, i, n, m);
    }
  }

  // ---- Creating and updating ----

  /** `incompatible` says whether posted history conflicts with the requested kind. */
  datatype UpdateCommand = UpdateCommand(
    version: nat, kind: Option<CategoryKind>, parent: Option<Option<nat>>, archived: Option<bool>, incompatible: bool)

  predicate HasActiveChildren(cs: seq<Category>, i: nat) {
    exists j :: 0 <= j < |cs| && cs[j].parent == Some(i) && !cs[j].archived
  }

  function CheckUpdate(cs: seq<Category>, i: nat, c: UpdateCommand): Result<Unit> {
    var _ :- Need(i < |cs|, CategoryNotFound);
    var _ :- Need(cs[i].version == c.version, VersionConflict);
    var kind, archiving := OrElse(c.kind, cs[i].kind), c.archived == Some(true);
    var _ :- Need(!((kind != cs[i].kind || archiving) && HasActiveChildren(cs, i)), CategoryHasActiveChildren);
    Need(!(kind != cs[i].kind && c.incompatible), CategoryInUse)
  }

  function UpdatedCategory(category: Category, c: UpdateCommand): Category {
    Category(OrElse(c.kind, category.kind), OrElse(c.parent, category.parent), OrElse(c.archived, category.archived),
             category.version + 1)
  }

  ghost function CreateCategory(cs: seq<Category>, kind: CategoryKind, parent: Option<nat>): Result<seq<Category>> {
    var _ :- ParentCheck(cs, parent, kind, None);
    Ok(cs + [Category(kind, parent, false, 1)])
  }

  ghost function UpdateCategory(cs: seq<Category>, i: nat, c: UpdateCommand): Result<seq<Category>> {
    var _ :- CheckUpdate(cs, i, c);
    var category := UpdatedCategory(cs[i], c);
    var _ :- ParentCheck(cs, category.parent, category.kind, Some(i));
    Ok(cs[i := category])
  }

  class CategoryTable {
    var categories: seq<Category>

    ghost predicate Valid()
      reads this
    {
      Sound(categories)
    }

    constructor ()
      ensures Valid() && categories == []
    {
      categories := [];
      new;
      assert Ranked(categories, []);
    }

    method Create(kind: CategoryKind, parent: Option<nat>) returns (r: Result<Unit>)
      requires Valid()
      modifies this
      ensures Valid()
      ensures match CreateCategory(old(categories), kind, parent)
              case Ok(cs) => r.Ok? && categories == cs
              case Err(e) => r == Err(e) && categories == old(categories)
    {
      r := ValidateParent(categories, parent, kind, None);
      if r.Ok? {
        CreateIsSound(categories, kind, parent);
        categories := categories + [Category(kind, parent, false, 1)];
      }
    }

    method Update(i: nat, c: UpdateCommand) returns (r: Result<Unit>)
      requires Valid()
      modifies this
      ensures Valid()
      ensures match UpdateCategory(old(categories), i, c)
              case Ok(cs) => r.Ok? && categories == cs
              case Err(e) => r == Err(e) && categories == old(categories)
    {
      r := CheckUpdate(categories, i, c);
      if r.Err? {
        return;
      }
      var model := categories[i];
      var kind := OrElse(c.kind, model.kind);
      var parent := OrElse(c.parent, model.parent);
      r := ValidateParent(categories, parent, kind, Some(i));
      if r.Err? {
        return;
      }
      UpdateIsSound(categories, i, c);
      if c.kind.Some? {
        model := model.(kind := kind);
      }
      if c.parent.Some? {
        model := model.(parent := parent);
      }
      if c.archived.Some? {
        model := model.(archived := c.archived.value);
      }
      model := model.(version := model.version + 1);
      categories := categories[i := model];
    }
  }

  // ---- Both keep the hierarchy sound ----

  lemma CreateIsSound(cs: seq<Category>, kind: CategoryKind, parent: Option<nat>)
    requires Sound(cs) && CreateCategory(cs, kind, parent).Ok?
    ensures Sound(CreateCategory(cs, kind, parent).value)
  {
    var cs' := CreateCategory(cs, kind, parent).value;
    var rank: seq<nat> :| Ranked(cs, rank);
    var top: nat := if parent.Some? then rank[parent.value] + 1 else 0;
    assert Ranked(cs', rank + [top]);
    forall i: nat | i < |cs'| ensures WellPlaced(cs', i) {
      assert i < |cs| ==> WellPlaced(cs, i);
    }
  }

  /** Being under a category is inherited from the parent, and only from there. */
  lemma UnderParent(cs: seq<Category>, i: nat, c: nat)
    requires i < |cs|
    ensures Under(cs, i, c) <==> i == c || (cs[i].parent.Some? && Under(cs, cs[i].parent.value, c))
  {
    if i == c {
      assert Ancestor(cs, i, 0) == Some(c);
    }
    if cs[i].parent.Some? && Under(cs, cs[i].parent.value, c) {
      var n: nat :| Ancestor(cs, cs[i].parent.value, n) == Some(c);
      AncestorOfParent(cs, i, n);
      assert Ancestor(cs, i, n + 1) == Some(c);
    }
    if Under(cs, i, c) && i != c {
      var n: nat :| Ancestor(cs, i, n) == Some(c);
      if cs[i].parent.Some? {
        AncestorOfParent(cs, i, n - 1);
        assert Ancestor(cs, cs[i].parent.value, n - 1) == Some(c);
      } else {
        assert Ancestor(cs, i, 0 + 1).None?;
        NoAncestorsBeyond(cs, i, 0);
      }
    }
  }

  lemma {:induction false} AncestorOfParent(cs: seq<Category>, i: nat, n: nat)
    requires i < |cs| && cs[i].parent.Some?
    ensures Ancestor(cs, i, n + 1) == Ancestor(cs, cs[i].parent.value, n)
  {
    if n > 0 {
      AncestorOfParent(cs, i, n - 1);
    } else {
      assert Ancestor(cs, i, 0) == Some(i);
    }
  }

  /** Moving a category under one that is not below it: lifting its whole subtree above the new parent gives new
      ranks. */
  lemma MovedForest(cs: seq<Category>, i: nat, category: Category)
    requires Forest(cs) && i < |cs|
    requires category.parent.Some? ==> category.parent.value < |cs| && !Under(cs, category.parent.value, i)
    ensures Forest(cs[i := category])
  {
    var rank: seq<nat> :| Ranked(cs, rank);
    var cs' := cs[i := category];
    var lift: nat := if category.parent.Some? then rank[category.parent.value] + 1 else 0;
    var rank' := seq(|cs|, j requires 0 <= j < |cs| => rank[j] + if Under(cs, j, i) then lift else 0);
    forall j | 0 <= j < |cs'| && cs'[j].parent.Some?
      ensures cs'[j].parent.value < |cs'| && rank'[cs'[j].parent.value] < rank'[j]
    {
      UnderParent(cs, j, i);
    }
    assert Ranked(cs', rank');
  }

  lemma UpdatePlaces(cs: seq<Category>, i: nat, c: UpdateCommand, j: nat)
    requires Sound(cs) && UpdateCategory(cs, i, c).Ok? && j < |cs|
    ensures WellPlaced(UpdateCategory(cs, i, c).value, j)
  {
    var cs' := UpdateCategory(cs, i, c).value;
    assert WellPlaced(cs, j);
    if j != i && cs[j].parent == Some(i) && !cs[j].archived {
      assert HasActiveChildren(cs, i);
    }
  }

  lemma UpdateIsSound(cs: seq<Category>, i: nat, c: UpdateCommand)
    requires Sound(cs) && UpdateCategory(cs, i, c).Ok?
    ensures Sound(UpdateCategory(cs, i, c).value)
  {
    var cs' := UpdateCategory(cs, i, c).value;
    MovedForest(cs, i, UpdatedCategory(cs[i], c));
    forall j: nat | j < |cs'| ensures WellPlaced(cs', j) {
      UpdatePlaces(cs, i, c, j);
    }
  }

  /** The check is not stricter than needed: a new parent below the category itself would close a cycle. */
  lemma CyclesAreRefusedExactly(cs: seq<Category>, i: nat, parent: nat, category: Category)
    requires Forest(cs) && i < |cs| && parent < |cs| && category.parent == Some(parent)
    ensures Forest(cs[i := category]) <==> !Under(cs, parent, i)
  {
    if Under(cs, parent, i) {
      var n: nat :| Ancestor(cs, parent, n) == Some(i);
      ClosedCycle(cs, i, category, parent, n);
    } else {
      MovedForest(cs, i, category);
    }
  }

  /** The first time that the way up from the new parent meets the category, the changed relation leads back. */
  lemma {:induction false} ClosedCycle(cs: seq<Category>, i: nat, category: Category, parent: nat, n: nat)
    requires i < |cs| && parent < |cs| && category.parent == Some(parent) && Ancestor(cs, parent, n) == Some(i)
    ensures !Forest(cs[i := category])
  {
    var cs' := cs[i := category];
    assert cs'[i] == category;
    forall rank: seq<nat> ensures Ranked(cs', rank) ==> rank[i] <= rank[parent] {
      if Ranked(cs', rank) {
        WayUpDescends(cs, i, category, parent, n, rank);
      }
    }
  }

  /** Ranks do not grow on the way up from the new parent to the category. */
  lemma {:induction false} WayUpDescends(cs: seq<Category>, i: nat, category: Category, a: nat, n: nat, rank: seq<nat>)
    requires i < |cs| && a < |cs| && Ancestor(cs, a, n) == Some(i) && Ranked(cs[i := category], rank)
    ensures rank[i] <= rank[a]
    decreases n
  {
    if a != i {
      assert n > 0;
      if cs[a].parent.Some? {
        AncestorOfParent(cs, a, n - 1);
        assert cs[i := category][a] == cs[a];
        WayUpDescends(cs, i, category, cs[a].parent.value, n - 1, rank);
      } else {
        NoAncestorsBeyond(cs, a, 0);
      }
    }
  }

  // ---- What the operations write ----

  lemma CategoryIsCreated(cs: seq<Category>, kind: CategoryKind, parent: Option<nat>)
    requires CreateCategory(cs, kind, parent).Ok?
    ensures var cs', i := CreateCategory(cs, kind, parent).value, |cs|;
      && cs <= cs' && |cs'| == i + 1
      && cs'[i].kind == kind && cs'[i].parent == parent && !cs'[i].archived && cs'[i].version == 1
  {
  }

  /** An accepted update takes effect: what it names has the value that it names, what it does not name is as it was,
      and no other category changes. */
  lemma CategoryIsUpdated(cs: seq<Category>, i: nat, c: UpdateCommand)
    requires UpdateCategory(cs, i, c).Ok?
    ensures i < |cs| && |UpdateCategory(cs, i, c).value| == |cs|
    ensures var cs' := UpdateCategory(cs, i, c).value;
      && (forall j :: 0 <= j < |cs| && j != i ==> cs'[j] == cs[j])
      && cs[i].version == c.version && cs'[i].version == c.version + 1
      && cs'[i].kind == (if c.kind.Some? then c.kind.value else cs[i].kind)
      && cs'[i].parent == (if c.parent.Some? then c.parent.value else cs[i].parent)
      && cs'[i].archived == (if c.archived.Some? then c.archived.value else cs[i].archived)
  {
  }

  /** An update of an existing category that names its version is accepted exactly when its kind stays or neither active
      children nor posted history stand against the new one, no active children are left under an archived one, and the
      parent it would have is none, or an active other category that accepts its kind and is not below it. */
  lemma UpdatedIff(cs: seq<Category>, i: nat, c: UpdateCommand)
    requires i < |cs| && c.version == cs[i].version
    ensures var kind := if c.kind.Some? then c.kind.value else cs[i].kind;
      var parent := if c.parent.Some? then c.parent.value else cs[i].parent;
      UpdateCategory(cs, i, c).Ok? <==>
        && (kind == cs[i].kind || (!HasActiveChildren(cs, i) && !c.incompatible))
        && (c.archived == Some(true) ==> !HasActiveChildren(cs, i))
        && (parent.Some? ==>
             && parent.value != i && parent.value < |cs| && !cs[parent.value].archived
             && (cs[parent.value].kind == Both || cs[parent.value].kind == kind)
             && !Under(cs, parent.value, i))
  {
  }

  /** A category cannot be put under itself or under anything below it, and is told so. */
  lemma CyclesAreTold(cs: seq<Category>, i: nat, c: UpdateCommand, p: nat)
    requires i < |cs| && c.version == cs[i].version && c.kind.None? && c.archived.None?
    requires c.parent == Some(Some(p)) && p < |cs| && !cs[p].archived && ParentAccepts(cs[p].kind, cs[i].kind)
    ensures Under(cs, p, i) ==> UpdateCategory(cs, i, c) == Err(CategoryParentInvalid)
  {
  }

  /** The refusal names what stands against the update: the version, then the children, then the history. */
  lemma UpdateRefusals(cs: seq<Category>, i: nat, c: UpdateCommand)
    requires i < |cs|
    ensures c.version != cs[i].version ==> UpdateCategory(cs, i, c) == Err(VersionConflict)
    ensures c.version == cs[i].version && c.archived == Some(true) && HasActiveChildren(cs, i) ==>
      UpdateCategory(cs, i, c) == Err(CategoryHasActiveChildren)
    ensures c.version == cs[i].version && !HasActiveChildren(cs, i) && c.incompatible ==>
      (c.kind.Some? && c.kind.value != cs[i].kind ==> UpdateCategory(cs, i, c) == Err(CategoryInUse))
  {
  }
}
