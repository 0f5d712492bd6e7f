/** The search page's filters and their mirror in the URL: the query parameters
    `username`, `teach`, `learn` (comma-joined category lists) and `known`, kept in a
    `URLSearchParams` object that the page edits with `set` and `delete`. */
module SearchUrl {
  import opened Http
  import opened Text
  import opened Lists

  /** A `URLSearchParams` object: name-value pairs in order; a name may repeat. */
  type Query = seq<(string, string)>

  /** `params.get(name)`: the value of the first pair with that name. */
  function GetParam(q: Query, name: string): Option<string>
    decreases |q|
  {
    if q == [] then None
    else if q[0].0 == name then Some(q[0].1)
    else GetParam(q[1..], name)
  }

  /** `params.delete(name)`: every pair with that name goes, the others stay in order. */
  function DeleteParam(q: Query, name: string): (r: Query)
    ensures forall i :: 0 <= i < |r| ==> r[i].0 != name
    ensures GetParam(r, name) == None
    ensures forall other :: other != name ==> GetParam(r, other) == GetParam(q, other)
    decreases |q|
  {
    if q == [] then []
    else
      var rest := DeleteParam(q[1..], name);
      if q[0].0 == name then rest
      else assert ([q[0]] + rest)[1..] == rest; [q[0]] + rest
  }

  /** `params.set(name, value)`: the first pair with that name takes the value and the
      later ones go; with no such pair, one is appended. */
  function SetParam(q: Query, name: string, value: string): (r: Query)
    ensures GetParam(r, name) == Some(value)
    ensures forall other :: other != name ==> GetParam(r, other) == GetParam(q, other)
    ensures forall i, j :: 0 <= i < j < |r| && r[i].0 == name ==> r[j].0 != name
    decreases |q|
  {
    if q == [] then [(name, value)]
    else if q[0].0 == name then [(name, value)] + DeleteParam(q[1..], name)
    else [q[0]] + SetParam(q[1..], name, value)
  }

  /** The filter state of the search page. */
  datatype Filters = Filters(username: string, teach: seq<Category>, learn: seq<Category>, known: bool)

  /** The filters as the page first renders: nothing chosen. */
  const NoFilters: Filters := Filters("", [], [], false)

  /** The four parameter names the page owns. */
  const FilterNames: set<string> := {"username", "teach", "learn", "known"}

  /** A category list that survives being joined with commas and split again:
      no empty name (`filter(Boolean)` would drop it) and no comma in a name. */
  predicate Joinable(xs: seq<Category>) {
    forall i :: 0 <= i < |xs| ==> xs[i] != "" && ',' !in xs[i]
  }

  /** `searchParams.get(name)?.split(',').filter(Boolean) || []` */
  function LoadCategories(q: Query, name: string): (r: seq<Category>)
    ensures forall i :: 0 <= i < |r| ==> r[i] != "" && ',' !in r[i]
  {
    match GetParam(q, name)
    case None => []
    case Some(v) => NonEmpty(Split(v, ','))
  }

  /** The filter state read from the URL when the page mounts. */
  function LoadFilters(q: Query): Filters
  {
    Filters(
      match GetParam(q, "username") case Some(v) => v case None => "",
      LoadCategories(q, "teach"),
      LoadCategories(q, "learn"),
      GetParam(q, "known") == Some("true"))
  }

  /** What the URL holds once the filters `f` have been written into it: each
      parameter is present exactly when its filter is set. */
  predicate Saved(q: Query, f: Filters) {
    && GetParam(q, "username") == (if f.username != "" then Some(f.username) else None)
    && GetParam(q, "teach") == (if |f.teach| > 0 then Some(Join(f.teach, ',')) else None)
    && GetParam(q, "learn") == (if |f.learn| > 0 then Some(Join(f.learn, ',')) else None)
    && GetParam(q, "known") == (if f.known then Some("true") else None)
  }

  /** A saved category list is read back as it was. */
  lemma LoadSavedCategories(q: Query, name: string, xs: seq<Category>)
    requires Joinable(xs)
    requires GetParam(q, name) == (if |xs| > 0 then Some(Join(xs, ',')) else None)
    ensures LoadCategories(q, name) == xs
  {
    if |xs| > 0 {
      SplitJoin(xs, ',');
    }
  }

  /** Save then load is the identity on filters whose category names are
      non-empty and comma-free. */
  lemma LoadSaved(q: Query, f: Filters)
    requires Saved(q, f)
    requires Joinable(f.teach) && Joinable(f.learn)
    ensures LoadFilters(q) == f
  {
    LoadSavedCategories(q, "teach", f.teach);
    LoadSavedCategories(q, "learn", f.learn);
  }

  /** Without the side condition the round trip fails: a name holding a comma comes
      back as two names, and an empty name is lost. */
  lemma RoundTripNeedsJoinableNames(q: Query)
    requires Saved(q, Filters("", ["a,b"], [""], false))
    ensures LoadFilters(q).teach == ["a", "b"]
    ensures LoadFilters(q).learn == []
  {
    assert Join(["a,b"], ',') == "a,b";
    assert Split("a,b", ',') == ["a", "b"] by {
      assert "a,b" == "a" + [','] + "b";
      SplitAtFirstSeparator("a", ',', "b");
      SplitWithoutSeparator("a", ',');
      SplitWithoutSeparator("b", ',');
    }
    assert Split("", ',') == [""];
    assert NonEmpty(["a", "b"]) == ["a", "b"];
    assert NonEmpty([""]) == [] by {
      assert NonEmpty([""]) == [] + NonEmpty([""][1..]);
    }
  }

  /** The mount effect searches when some filter differs from its default. */
  predicate ShouldSearchOnMount(f: Filters) {
    f.username != "" || |f.teach| > 0 || |f.learn| > 0 || f.known
  }

  /** `handleSearch` goes ahead only with a non-blank username or a category; by
      `Trim`'s contract, `username.trim()` is empty exactly when the username is all
      whitespace. */
  predicate HasCriteria(f: Filters) {
    !AllWhitespace(f.username) || |f.teach| > 0 || |f.learn| > 0
  }

  /** Every search the validation gate lets through would also have been started on
      mount; the converse fails when only `known` is set, or the username is blank. */
  lemma CriteriaImplyMountSearch(f: Filters)
    ensures HasCriteria(f) ==> ShouldSearchOnMount(f)
    ensures ShouldSearchOnMount(f) && !HasCriteria(f) <==>
      |f.teach| == 0 && |f.learn| == 0 && AllWhitespace(f.username) && (f.username != "" || f.known)
  {
  }
}
