/**
 * The category registry of the server: a JSON file `{"categories": [...]}`
 * read by `load_categories`, overwritten by `save_categories`, and changed by
 * the `add_category` / `remove_category` tools with a read-modify-write.
 * Matching is exact and case-sensitive; names are stored as given.
 */
module CategoryRegistry {
  import opened Wrappers
  import opened JsonValue

  /** The nine categories written when no file exists, in this order. */
  const DefaultCategories: seq<string> :=
    ["Snacks", "Vegetables", "Meat", "Clothes", "Makeup/Skincare", "Condiments", "Dairy", "Beverages", "Bakery"]

  /** A list of names as JSON strings. */
  function Strs(names: seq<string>): (r: seq<Json>)
    ensures |r| == |names|
  {
    seq(|names|, i requires 0 <= i < |names| => Str(names[i]))
  }

  /** The content of an existing categories file: a document `json.load` decodes, or not. */
  datatype Stored = Parsed(doc: Json) | Undecodable

  /** The document `save_categories` writes. */
  function Document(categories: seq<Json>): (r: Json) {
    Obj(map["categories" := Arr(categories)])
  }

  /** What `load_categories` returns for a file in the given state (None: no file). */
  function Loaded(file: Option<Stored>): (r: Result<Json, Fault>)
  {
    match file
    case None => Ok(Arr(Strs(DefaultCategories)))
    case Some(Undecodable) => Err(DecodeError)
    case Some(Parsed(doc)) =>
      if doc.Obj? then Ok(Get(doc.fields, "categories", Arr([]))) else Err(MissingAttribute("get"))
  }

  /** The file after `load_categories`: the default document is written when none exists. */
  function AfterLoad(file: Option<Stored>): (r: Option<Stored>)
  {
    if file.None? then Some(Parsed(Document(Strs(DefaultCategories)))) else file
  }

  datatype Status = Added | Exists | Removed | NotFound

  /** The reply of `add_category` / `remove_category`: status and full list, or an error. */
  datatype RegistryReply = Reply(status: Status, categories: Json) | Error(fault: Fault)

  /** `list.remove(x)`: drop the first element equal to x. */
  function RemoveFirst<T(==)>(xs: seq<T>, x: T): (r: seq<T>)
  {
    if |xs| == 0 then []
    else if xs[0] == x then xs[1..]
    else [xs[0]] + RemoveFirst(xs[1..], x)
  }

  /** The position of the first occurrence of x. */
  function FirstIndex<T(==)>(xs: seq<T>, x: T): (i: nat)
    requires x in xs
    ensures i < |xs| && xs[i] == x
    ensures forall j :: 0 <= j < i ==> xs[j] != x
  {
    if xs[0] == x then 0 else 1 + FirstIndex(xs[1..], x)
  }

  /** The in-memory step of `add_category` on the loaded value. */
  function AddTo(categories: Json, name: string): (r: RegistryReply) {
    match PyContains(categories, name)
    case Err(f) => Error(f)
    case Ok(true) => Reply(Exists, categories)
    case Ok(false) =>
      if categories.Arr? then Reply(Added, Arr(categories.items + [Str(name)]))
      else Error(MissingAttribute("append"))
  }

  /** The in-memory step of `remove_category` on the loaded value. */
  function RemoveFrom(categories: Json, name: string): (r: RegistryReply) {
    match PyContains(categories, name)
    case Err(f) => Error(f)
    case Ok(false) => Reply(NotFound, categories)
    case Ok(true) =>
      if categories.Arr? then Reply(Removed, Arr(RemoveFirst(categories.items, Str(name))))
      else Error(MissingAttribute("remove"))
  }

  /** The reply of `add_category` and the file afterwards; only an addition writes. */
  function AddCategoryEffect(file: Option<Stored>, name: string): (r: (RegistryReply, Option<Stored>)) {
    match Loaded(file)
    case Err(f) => (Error(f), AfterLoad(file))
    case Ok(categories) =>
      var reply := AddTo(categories, name);
      if reply.Reply? && reply.status == Added then (reply, Some(Parsed(Document(reply.categories.items))))
      else (reply, AfterLoad(file))
  }

  /** The reply of `remove_category` and the file afterwards; only a removal writes. */
  function RemoveCategoryEffect(file: Option<Stored>, name: string): (r: (RegistryReply, Option<Stored>)) {
    match Loaded(file)
    case Err(f) => (Error(f), AfterLoad(file))
    case Ok(categories) =>
      var reply := RemoveFrom(categories, name);
      if reply.Reply? && reply.status == Removed then (reply, Some(Parsed(Document(reply.categories.items))))
      else (reply, AfterLoad(file))
  }

  /** The durable categories file; `file` is None while no file exists. */
  class CategoryStore {
    var file: Option<Stored>

    constructor (initial: Option<Stored>)
      ensures file == initial
    {
      file := initial;
    }

    /** `load_categories`. */
    method Load() returns (r: Result<Json, Fault>)
      modifies this
      ensures r == Loaded(old(file))
      ensures file == AfterLoad(old(file))
    {
      match file {
        case None =>
          var defaults := Strs(DefaultCategories);
          file := Some(Parsed(Document(defaults)));
          r := Ok(Arr(defaults));
        case Some(Undecodable) =>
          r := Err(DecodeError);
        case Some(Parsed(data)) =>
          if data.Obj? {
            r := Ok(Get(data.fields, "categories", Arr([])));
          } else {
            r := Err(MissingAttribute("get"));
          }
      }
    }

    /** `save_categories`: overwrite the file with the given list. */
    method Save(categories: seq<Json>)
      modifies this
      ensures file == Some(Parsed(Document(categories)))
    {
      file := Some(Parsed(Document(categories)));
    }

    /** The `add_category` tool. */
    method AddCategory(name: string) returns (reply: RegistryReply)
      modifies this
      ensures (reply, file) == AddCategoryEffect(old(file), name)
    {
      var loaded := Load();
      if loaded.Err? {
        return Error(loaded.error);
      }
      var categories := loaded.value;
      var found := PyContains(categories, name);
      if found.Err? {
        return Error(found.error);
      }
      if !found.value {
        if !categories.Arr? {
          return Error(MissingAttribute("append"));
        }
        var updated := categories.items + [Str(name)];
        Save(updated);
        reply := Reply(Added, Arr(updated));
      } else {
        reply := Reply(Exists, categories);
      }
    }

    /** The `remove_category` tool. */
    method RemoveCategory(name: string) returns (reply: RegistryReply)
      modifies this
      ensures (reply, file) == RemoveCategoryEffect(old(file), name)
    {
      var loaded := Load();
      if loaded.Err? {
        return Error(loaded.error);
      }
      var categories := loaded.value;
      var found := PyContains(categories, name);
      if found.Err? {
        return Error(found.error);
      }
      if found.value {
        if !categories.Arr? {
          return Error(MissingAttribute("remove"));
        }
        var updated := RemoveFirst(categories.items, Str(name));
        Save(updated);
        reply := Reply(Removed, Arr(updated));
      } else {
        reply := Reply(NotFound, categories);
      }
    }
  }

  // ---------------------------------------------------------------------------
  // Properties of the registry.
  // ---------------------------------------------------------------------------

  /** With no file, a load returns the nine defaults and writes them, so the next load
      returns the same list and writes nothing. */
  lemma DefaultBootstrap()
    ensures Loaded(None) == Ok(Arr(Strs(DefaultCategories)))
    ensures |DefaultCategories| == 9
    ensures Loaded(AfterLoad(None)) == Loaded(None)
    ensures AfterLoad(AfterLoad(None)) == AfterLoad(None)
  {
  }

  /** `save_categories(cs)` followed by `load_categories()` gives back cs. */
  lemma SaveThenLoad(categories: seq<Json>)
    ensures Loaded(Some(Parsed(Document(categories)))) == Ok(Arr(categories))
  {
  }

  /** Loading never changes what a later load returns. */
  lemma LoadIsStable(file: Option<Stored>)
    ensures Loaded(AfterLoad(file)) == Loaded(file)
  {
  }

  /** An absent name is appended at the end and the new list is written. */
  lemma AddAbsentAppends(file: Option<Stored>, name: string, xs: seq<Json>)
    requires Loaded(file) == Ok(Arr(xs)) && Str(name) !in xs
    ensures AddCategoryEffect(file, name) ==
            (Reply(Added, Arr(xs + [Str(name)])), Some(Parsed(Document(xs + [Str(name)]))))
  {
  }

  /** A present name gives "exists"; the list and the file stay as the load left them
      (with no file, that load has written the defaults). */
  lemma AddPresentReportsExists(file: Option<Stored>, name: string, xs: seq<Json>)
    requires Loaded(file) == Ok(Arr(xs)) && Str(name) in xs
    ensures AddCategoryEffect(file, name) == (Reply(Exists, Arr(xs)), AfterLoad(file))
  {
  }

  /** Adding the same name twice is the same as adding it once. */
  lemma AddIsIdempotent(file: Option<Stored>, name: string)
    requires AddCategoryEffect(file, name).0.Reply?
    ensures var (first, after) := AddCategoryEffect(file, name);
            AddCategoryEffect(after, name) == (Reply(Exists, first.categories), after)
  {
  }

  /** Membership is exact: a name differing only in case or surrounding spaces is a new category. */
  lemma MatchingIsExact()
    ensures AddCategoryEffect(None, "dairy").0 == Reply(Added, Arr(Strs(DefaultCategories) + [Str("dairy")]))
    ensures AddCategoryEffect(None, " Dairy").0 == Reply(Added, Arr(Strs(DefaultCategories) + [Str(" Dairy")]))
    ensures AddCategoryEffect(None, "Dairy").0 == Reply(Exists, Arr(Strs(DefaultCategories)))
  {
    var d := Strs(DefaultCategories);
    assert d[6] == Str("Dairy");
    assert forall i :: 0 <= i < |d| ==> d[i] == Str(DefaultCategories[i]);
  }

  /** Removing the first occurrence keeps everything before and after it, in order. */
  lemma {:induction false} RemoveFirstSplits<T>(xs: seq<T>, x: T)
    requires x in xs
    ensures RemoveFirst(xs, x) == xs[..FirstIndex(xs, x)] + xs[FirstIndex(xs, x) + 1..]
  {
    if xs[0] != x {
      var tail := xs[1..];
      RemoveFirstSplits(tail, x);
      var j := FirstIndex(tail, x);
      assert FirstIndex(xs, x) == j + 1;
      calc {
        RemoveFirst(xs, x);
        [xs[0]] + RemoveFirst(tail, x);
        [xs[0]] + (tail[..j] + tail[j + 1..]);
        ([xs[0]] + tail[..j]) + tail[j + 1..];
        { assert [xs[0]] + tail[..j] == xs[..j + 1]; assert tail[j + 1..] == xs[j + 2..]; }
        xs[..j + 1] + xs[j + 2..];
      }
    }
  }

  /** Exactly one occurrence goes: the list is one shorter and loses one copy of x. */
  lemma {:induction false} RemoveFirstCounts<T>(xs: seq<T>, x: T)
    requires x in xs
    ensures |RemoveFirst(xs, x)| == |xs| - 1
    ensures multiset(RemoveFirst(xs, x)) == multiset(xs) - multiset{x}
  {
    if xs[0] != x {
      RemoveFirstCounts(xs[1..], x);
      assert xs == [xs[0]] + xs[1..];
    } else {
      assert xs == [x] + xs[1..];
    }
  }

  /** A name that is not in a list is not found in it, so removal after addition restores it. */
  lemma {:induction false} RemoveFirstOfAppended<T>(xs: seq<T>, x: T)
    requires x !in xs
    ensures RemoveFirst(xs + [x], x) == xs
  {
    if |xs| > 0 {
      assert (xs + [x])[1..] == xs[1..] + [x];
      RemoveFirstOfAppended(xs[1..], x);
      assert [xs[0]] + xs[1..] == xs;
    }
  }

  /** A present name loses its first occurrence only, and the result is written. */
  lemma RemovePresentDropsFirst(file: Option<Stored>, name: string, xs: seq<Json>)
    requires Loaded(file) == Ok(Arr(xs)) && Str(name) in xs
    ensures var i := FirstIndex(xs, Str(name));
            RemoveCategoryEffect(file, name) ==
              (Reply(Removed, Arr(xs[..i] + xs[i + 1..])), Some(Parsed(Document(xs[..i] + xs[i + 1..]))))
  {
    RemoveFirstSplits(xs, Str(name));
  }

  /** An absent name gives "not_found"; the list and the file stay as the load left them
      (with no file, that load has written the defaults). */
  lemma RemoveAbsentReportsNotFound(file: Option<Stored>, name: string, xs: seq<Json>)
    requires Loaded(file) == Ok(Arr(xs)) && Str(name) !in xs
    ensures RemoveCategoryEffect(file, name) == (Reply(NotFound, Arr(xs)), AfterLoad(file))
  {
  }

  /** Removing a name just added to a list that lacked it restores the list; the file then
      holds exactly {"categories": that list}, so other top-level keys are not kept. */
  lemma AddThenRemoveRestores(file: Option<Stored>, name: string, xs: seq<Json>)
    requires Loaded(file) == Ok(Arr(xs)) && Str(name) !in xs
    ensures var after := AddCategoryEffect(file, name).1;
            RemoveCategoryEffect(after, name) == (Reply(Removed, Arr(xs)), Some(Parsed(Document(xs))))
  {
    RemoveFirstOfAppended(xs, Str(name));
  }
}
