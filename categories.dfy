/** The category directory: the loop of `get_allowed_categories` that turns
    the `category_groups -> categories` document into a flat list of names. */
module Categories {
  import opened Json

  /** `category['name']` for each category of one group, in order. The
      first category without a name raises its error. */
  function NamesOf(cats: seq<Json>): (r: Result<seq<Json>>)
    ensures r.Success? <==> forall i :: 0 <= i < |cats| ==> Subscript(cats[i], "name").Success?
    ensures r.Success? ==> |r.value| == |cats|
    ensures r.Success? ==> forall i :: 0 <= i < |cats| ==> r.value[i] == cats[i].fields["name"]
    ensures r.Failure? ==> exists i :: 0 <= i < |cats| && Subscript(cats[i], "name") == Failure(r.error)
    decreases |cats|
  {
    if cats == [] then Success([])
    else
      var init :- NamesOf(cats[..|cats| - 1]);
      var name :- Subscript(cats[|cats| - 1], "name");
      Success(init + [name])
  }

  /** The names of the categories of one group (`group['categories']`). */
  function GroupNames(group: Json): Result<seq<Json>> {
    var cs :- Subscript(group, "categories");
    var cats :- Members(cs);
    NamesOf(cats)
  }

  /** The names of all groups, group after group. */
  function FlattenGroups(groups: seq<Json>): (r: Result<seq<Json>>)
    ensures r.Success? <==> forall i :: 0 <= i < |groups| ==> GroupNames(groups[i]).Success?
    decreases |groups|
  {
    if groups == [] then Success([])
    else
      var init :- FlattenGroups(groups[..|groups| - 1]);
      var names :- GroupNames(groups[|groups| - 1]);
      Success(init + names)
  }

  /** The flat list `get_allowed_categories` returns for a parsed response
      body `data['data']['category_groups']`. */
  function CategoryNames(doc: Json): Result<seq<Json>> {
    var data :- Subscript(doc, "data");
    var v :- Subscript(data, "category_groups");
    var groups :- Members(v);
    FlattenGroups(groups)
  }

  /** The number of categories a group lists (0 when it lists none or its
      `categories` cannot be iterated). */
  function GroupSize(group: Json): nat {
    match Subscript(group, "categories")
    case Failure(_) => 0
    case Success(cs) =>
      match Members(cs)
      case Failure(_) => 0
      case Success(cats) => |cats|
  }

  /** The sum of the group sizes. */
  function CategoryCount(groups: seq<Json>): nat {
    if groups == [] then 0 else GroupSize(groups[0]) + CategoryCount(groups[1..])
  }

  /** Flattening is a concatenation: the names of `a + b` are those of `a`
      followed by those of `b`, and it succeeds exactly when both do. */
  lemma {:induction false} FlattenAppend(a: seq<Json>, b: seq<Json>)
    ensures FlattenGroups(a + b).Success? <==> FlattenGroups(a).Success? && FlattenGroups(b).Success?
    ensures FlattenGroups(a + b).Success? ==>
              FlattenGroups(a + b).value == FlattenGroups(a).value + FlattenGroups(b).value
    decreases |b|
  {
    if b == [] {
      assert a + b == a;
    } else {
      var b' := b[..|b| - 1];
      assert (a + b)[..|a + b| - 1] == a + b';
      assert (a + b)[|a + b| - 1] == b[|b| - 1];
      FlattenAppend(a, b');
      if FlattenGroups(a + b).Success? {
        var x := FlattenGroups(a).value;
        var y := FlattenGroups(b').value;
        var z := GroupNames(b[|b| - 1]).value;
        assert x + y + z == x + (y + z);
      }
    }
  }

  /** A single group flattens to its own names. */
  lemma FlattenSingle(g: Json)
    ensures FlattenGroups([g]) == GroupNames(g)
  {
    assert [g][..0] == [];
    if GroupNames(g).Success? {
      assert [] + GroupNames(g).value == GroupNames(g).value;
    }
  }

  /** The flat list is as long as the groups' category lists together. */
  lemma {:induction false} FlattenLength(groups: seq<Json>)
    requires FlattenGroups(groups).Success?
    ensures |FlattenGroups(groups).value| == CategoryCount(groups)
    decreases |groups|
  {
    if groups != [] {
      assert groups == [groups[0]] + groups[1..];
      FlattenAppend([groups[0]], groups[1..]);
      FlattenSingle(groups[0]);
      FlattenLength(groups[1..]);
    }
  }

  /** Once a prefix of the categories fails, the whole list fails the same way. */
  lemma {:induction false} NamesFailurePersists(cats: seq<Json>, k: nat)
    requires k <= |cats|
    requires NamesOf(cats[..k]).Failure?
    ensures NamesOf(cats) == NamesOf(cats[..k])
    decreases |cats| - k
  {
    if k < |cats| {
      var init := cats[..|cats| - 1];
      assert init[..k] == cats[..k];
      NamesFailurePersists(init, k);
    } else {
      assert cats[..k] == cats;
    }
  }

  /** Once a prefix of the groups fails, the whole list fails the same way. */
  lemma {:induction false} FlattenFailurePersists(groups: seq<Json>, k: nat)
    requires k <= |groups|
    requires FlattenGroups(groups[..k]).Failure?
    ensures FlattenGroups(groups) == FlattenGroups(groups[..k])
    decreases |groups| - k
  {
    if k < |groups| {
      var init := groups[..|groups| - 1];
      assert init[..k] == groups[..k];
      FlattenFailurePersists(init, k);
    } else {
      assert groups[..k] == groups;
    }
  }

  /** The loop of `get_allowed_categories`: appends each category's name to
      `category_names`, group by group. */
  method AllowedCategoryNames(doc: Json) returns (res: Result<seq<Json>>)
    ensures res == CategoryNames(doc)
  {
    var data :- Subscript(doc, "data");
    var v :- Subscript(data, "category_groups");
    var groups :- Members(v);
    var names: seq<Json> := [];
    for i := 0 to |groups|
      invariant FlattenGroups(groups[..i]) == Success(names)
    {
      assert groups[..i + 1][..i] == groups[..i];
      var cs := Subscript(groups[i], "categories");
      if cs.Failure? {
        FlattenFailurePersists(groups, i + 1);
        return Failure(cs.error);
      }
      var cats := Members(cs.value);
      if cats.Failure? {
        FlattenFailurePersists(groups, i + 1);
        return Failure(cats.error);
      }
      ghost var before := names;
      for j := 0 to |cats.value|
        invariant NamesOf(cats.value[..j]).Success?
        invariant names == before + NamesOf(cats.value[..j]).value
      {
        assert cats.value[..j + 1][..j] == cats.value[..j];
        var name := Subscript(cats.value[j], "name");
        if name.Failure? {
          NamesFailurePersists(cats.value, j + 1);
          FlattenFailurePersists(groups, i + 1);
          return Failure(name.error);
        }
        names := names + [name.value];
      }
      assert cats.value[..|cats.value|] == cats.value;
    }
    assert groups[..|groups|] == groups;
    return Success(names);
  }
}
