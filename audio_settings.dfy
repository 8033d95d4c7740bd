/**
 * The configuration asset: per-category entries with defaults, pool sizes and
 * default fade times, the first-match lookup and the fill-in pass that appends an
 * entry for every category that has none.
 */
module Settings {
  import opened Wrappers
  import opened AudioCategories

  datatype CategorySettings = CategorySettings(category: Category, volume: real, muted: bool,
                                               maxSimultaneousSounds: int)

  /** A fresh entry for a category, with the field initialisers' values. */
  function DefaultEntry(c: Category): (e: CategorySettings)
    ensures e.category == c && e.volume == 1.0 && !e.muted && e.maxSimultaneousSounds == 10
  {
    CategorySettings(c, 1.0, false, 10)
  }

  /** Whether some entry of the list is for category `c`. */
  predicate HasEntry(list: seq<CategorySettings>, c: Category)
  {
    exists i :: 0 <= i < |list| && list[i].category == c
  }

  /** The position of the first entry for `c`, if any. */
  function FindFirst(list: seq<CategorySettings>, c: Category): (r: Option<nat>)
    ensures r.Some? ==> r.value < |list| && list[r.value].category == c
    ensures r.Some? ==> forall j :: 0 <= j < r.value ==> list[j].category != c
    ensures r.None? <==> !HasEntry(list, c)
  {
    if list == [] then None
    else if list[0].category == c then Some(0)
    else match FindFirst(list[1..], c)
      case None =>
        assert forall i :: 1 <= i < |list| ==> list[i] == list[1..][i - 1];
        None
      case Some(i) => Some(i + 1)
  }

  /** The fill-in pass over categories `cs`, one at a time: append a default entry
      for each category the list does not yet mention. */
  function AppendMissing(list: seq<CategorySettings>, cs: seq<Category>): seq<CategorySettings>
    decreases |cs|
  {
    if cs == [] then list
    else
      var next := if HasEntry(list, cs[0]) then list else list + [DefaultEntry(cs[0])];
      AppendMissing(next, cs[1..])
  }

  /** Default entries for the categories of `cs` that `list` lacks, in the order of `cs`. */
  function MissingDefaults(list: seq<CategorySettings>, cs: seq<Category>): seq<CategorySettings>
  {
    if cs == [] then []
    else (if HasEntry(list, cs[0]) then [] else [DefaultEntry(cs[0])]) + MissingDefaults(list, cs[1..])
  }

  /** The fill-in pass only appends: the old list is kept as a prefix, followed by a
      default entry for each missing category, in the order the categories are given. */
  lemma {:induction false} AppendMissingAppendsDefaults(list: seq<CategorySettings>, cs: seq<Category>)
    requires forall i, j :: 0 <= i < j < |cs| ==> cs[i] != cs[j]
    ensures AppendMissing(list, cs) == list + MissingDefaults(list, cs)
    decreases |cs|
  {
    if cs != [] {
      var c := cs[0];
      var head := if HasEntry(list, c) then [] else [DefaultEntry(c)];
      var next := if HasEntry(list, c) then list else list + [DefaultEntry(c)];
      assert next == list + head;
      var rest := cs[1..];
      assert forall i, j :: 0 <= i < j < |rest| ==> rest[i] == cs[i + 1] && rest[j] == cs[j + 1];
      assert c !in rest by {
        forall j | 0 <= j < |rest| ensures rest[j] != c {
          assert rest[j] == cs[j + 1];
        }
      }
      calc {
        AppendMissing(list, cs);
        AppendMissing(next, rest);
        { AppendMissingAppendsDefaults(next, rest); }
        next + MissingDefaults(next, rest);
        { MissingDefaultsIgnoresOthers(list, next, rest, c); }
        (list + head) + MissingDefaults(list, rest);
        list + (head + MissingDefaults(list, rest));
        list + MissingDefaults(list, cs);
      }
    }
  }

  /** Adding an entry for `c` does not change which of the other categories are missing. */
  lemma {:induction false} MissingDefaultsIgnoresOthers(list: seq<CategorySettings>, next: seq<CategorySettings>,
                                                        cs: seq<Category>, c: Category)
    requires next == list || next == list + [DefaultEntry(c)]
    requires c !in cs
    ensures MissingDefaults(next, cs) == MissingDefaults(list, cs)
    decreases |cs|
  {
    if cs != [] {
      assert HasEntry(next, cs[0]) == HasEntry(list, cs[0]) by {
        if HasEntry(next, cs[0]) {
          var i :| 0 <= i < |next| && next[i].category == cs[0];
          assert i < |list|;
        }
        if HasEntry(list, cs[0]) {
          var i :| 0 <= i < |list| && list[i].category == cs[0];
          assert next[i] == list[i];
        }
      }
      MissingDefaultsIgnoresOthers(list, next, cs[1..], c);
    }
  }

  /** After the pass, every category of `cs` has an entry. */
  lemma {:induction false} AppendMissingCovers(list: seq<CategorySettings>, cs: seq<Category>, c: Category)
    requires c in cs || HasEntry(list, c)
    ensures HasEntry(AppendMissing(list, cs), c)
    decreases |cs|
  {
    if cs != [] {
      var next := if HasEntry(list, cs[0]) then list else list + [DefaultEntry(cs[0])];
      if HasEntry(list, c) {
        var i :| 0 <= i < |list| && list[i].category == c;
        assert next[i] == list[i];
      } else if c == cs[0] && !HasEntry(list, c) {
        assert next[|list|].category == c;
      }
      assert c in cs[1..] || HasEntry(next, c);
      AppendMissingCovers(next, cs[1..], c);
    }
  }

  /** A list that already mentions every category of `cs` is left as it is. */
  lemma {:induction false} AppendMissingComplete(list: seq<CategorySettings>, cs: seq<Category>)
    requires forall c :: c in cs ==> HasEntry(list, c)
    ensures AppendMissing(list, cs) == list
    decreases |cs|
  {
    if cs != [] {
      assert cs[0] in cs;
      AppendMissingComplete(list, cs[1..]);
    }
  }

  /** The fill-in pass over all categories in declaration order. */
  function Validated(list: seq<CategorySettings>): (r: seq<CategorySettings>)
    ensures |list| <= |r| && r[..|list|] == list
    ensures r == list + MissingDefaults(list, AllCategories)
    ensures forall c: Category :: HasEntry(r, c)
  {
    AllCategoriesDistinct();
    AppendMissingAppendsDefaults(list, AllCategories);
    forall c: Category ensures HasEntry(AppendMissing(list, AllCategories), c) {
      AllCategoriesComplete(c);
      AppendMissingCovers(list, AllCategories, c);
    }
    AppendMissing(list, AllCategories)
  }

  /** Running the fill-in pass a second time appends nothing. */
  lemma ValidatedIdempotent(list: seq<CategorySettings>)
    ensures Validated(Validated(list)) == Validated(list)
  {
    var once := Validated(list);
    AllCategoriesDistinct();
    AppendMissingComplete(once, AllCategories);
    AppendMissingAppendsDefaults(once, AllCategories);
  }

  class AudioSettings {
    var categorySettings: seq<CategorySettings>
    var initialPoolSize: int
    var maxPoolSize: int
    var defaultFadeInTime: real
    var defaultFadeOutTime: real

    /** A new asset with the field initialisers' values. */
    constructor ()
      ensures categorySettings == []
      ensures initialPoolSize == 10 && maxPoolSize == 50
      ensures defaultFadeInTime == 0.5 && defaultFadeOutTime == 0.5
    {
      categorySettings := [];
      initialPoolSize := 10;
      maxPoolSize := 50;
      defaultFadeInTime := 0.5;
      defaultFadeOutTime := 0.5;
    }

    /** The first entry for `category`, or a fresh default entry that is not added. */
    function GetCategorySettings(category: Category): (r: CategorySettings)
      reads this
      ensures r.category == category
      ensures HasEntry(categorySettings, category) ==>
                exists i :: 0 <= i < |categorySettings| && r == categorySettings[i] &&
                  forall j :: 0 <= j < i ==> categorySettings[j].category != category
      ensures !HasEntry(categorySettings, category) ==> r == DefaultEntry(category)
    {
      match FindFirst(categorySettings, category)
      case Some(i) => categorySettings[i]
      case None => DefaultEntry(category)
    }

    /** Appends a default entry for every category that has none, in declaration order. */
    method OnValidate()
      modifies this
      ensures categorySettings == Validated(old(categorySettings))
      ensures initialPoolSize == old(initialPoolSize) && maxPoolSize == old(maxPoolSize)
      ensures defaultFadeInTime == old(defaultFadeInTime) && defaultFadeOutTime == old(defaultFadeOutTime)
    {
      var categories := AllCategories;
      for k := 0 to |categories|
        invariant AppendMissing(categorySettings, categories[k..]) == AppendMissing(old(categorySettings), categories)
        invariant initialPoolSize == old(initialPoolSize) && maxPoolSize == old(maxPoolSize)
        invariant defaultFadeInTime == old(defaultFadeInTime) && defaultFadeOutTime == old(defaultFadeOutTime)
      {
        var category := categories[k];
        assert categories[k..][1..] == categories[k + 1..];
        var present := Exists(category);
        if !present {
          categorySettings := categorySettings + [DefaultEntry(category)];
        }
      }
    }

    /** Whether some entry is for `category`, scanning the list. */
    method Exists(category: Category) returns (found: bool)
      ensures found == HasEntry(categorySettings, category)
    {
      found := false;
      var i := 0;
      while i < |categorySettings|
        invariant 0 <= i <= |categorySettings|
        invariant !found
        invariant forall j :: 0 <= j < i ==> categorySettings[j].category != category
      {
        if categorySettings[i].category == category {
          return true;
        }
        i := i + 1;
      }
    }
  }
}
