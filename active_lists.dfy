/**
 * The per-category lists of sounding voices and the completion watches that both
 * the coordinator and the legacy player keep, with the list operations they share.
 */
module ActiveLists {
  import opened AudioCategories
  import opened Sources
  import opened Settings
  import opened Sweeps

  /** The sounding voices of each category, in the order they were started. */
  type Lists = map<Category, seq<AudioSource>>

  /** A pending completion watch: the voice of a one-shot play and its category. */
  datatype Watch = Watch(source: AudioSource, category: Category)

  /** What a resumption does with a watch: keep waiting while the voice is alive and
      playing; once it is not, hand a live voice back, and drop a destroyed one. */
  datatype Fate = KeepWaiting | Reclaim | Drop

  function FateOf(w: Watch): (f: Fate)
    reads w.source
    ensures f == KeepWaiting <==> w.source.valid && w.source.IsPlaying()
    ensures f == Drop <==> !w.source.valid
  {
    if w.source.valid && w.source.IsPlaying() then KeepWaiting
    else if w.source.valid then Reclaim
    else Drop
  }

  /** The list without its first occurrence of `s`, as a list's `Remove` does. */
  function RemoveFirst(list: seq<AudioSource>, s: AudioSource): (r: seq<AudioSource>)
    ensures forall x :: x in r ==> x in list
  {
    if list == [] then []
    else if list[0] == s then list[1..]
    else [list[0]] + RemoveFirst(list[1..], s)
  }

  /** Removing takes out exactly one occurrence, and only when there is one. */
  lemma {:induction false} RemoveFirstCounts(list: seq<AudioSource>, s: AudioSource)
    ensures s !in list ==> RemoveFirst(list, s) == list
    ensures s in list ==> |RemoveFirst(list, s)| == |list| - 1
    ensures multiset(RemoveFirst(list, s)) == multiset(list) - multiset{s}
  {
    if list != [] {
      var head, tail := list[0], list[1..];
      assert list == [head] + tail;
      assert multiset(list) == multiset{head} + multiset(tail);
      if head != s {
        RemoveFirstCounts(tail, s);
        assert RemoveFirst(list, s) == [head] + RemoveFirst(tail, s);
        assert s in list <==> s in tail;
      }
    }
  }

  /** Removing a voice that is listed cuts the list at its first occurrence and
      keeps the voices before and after it, in order. */
  lemma {:induction false} RemoveFirstSplits(list: seq<AudioSource>, s: AudioSource)
    requires s in list
    ensures exists i :: 0 <= i < |list| && list[i] == s && s !in list[..i] &&
                        RemoveFirst(list, s) == list[..i] + list[i + 1..]
  {
    if list[0] != s {
      var tail := list[1..];
      RemoveFirstSplits(tail, s);
      var j :| 0 <= j < |tail| && tail[j] == s && s !in tail[..j] &&
               RemoveFirst(tail, s) == tail[..j] + tail[j + 1..];
      assert list[..j + 1] == [list[0]] + tail[..j];
      assert list[j + 2..] == tail[j + 1..];
      assert RemoveFirst(list, s) == list[..j + 1] + list[j + 2..];
    } else {
      assert list[..0] == [];
      assert RemoveFirst(list, s) == list[..0] + list[1..];
    }
  }

  /** A list per configured category, each empty; a later entry for a category
      replaces the list of an earlier one. */
  function CategoryLists(list: seq<CategorySettings>): Lists
  {
    if list == [] then map[]
    else CategoryLists(list[..|list| - 1])[list[|list| - 1].category := []]
  }

  /** The coordinator keeps a list for exactly the configured categories, all empty. */
  lemma {:induction false} CategoryListsKeys(list: seq<CategorySettings>, c: Category)
    ensures c in CategoryLists(list) <==> HasEntry(list, c)
    ensures c in CategoryLists(list) ==> CategoryLists(list)[c] == []
  {
    if list != [] {
      var n := |list| - 1;
      CategoryListsKeys(list[..n], c);
      if HasEntry(list[..n], c) {
        var i :| 0 <= i < n && list[..n][i].category == c;
        assert list[i].category == c;
      }
      if HasEntry(list, c) && list[n].category != c {
        var i :| 0 <= i < |list| && list[i].category == c;
        assert list[..n][i].category == c;
      }
    }
  }

  lemma EmptyUnion<K, V>(m: map<K, V>)
    ensures map[] + m == m
  {
  }

  /** The voices listed under the categories `cs`. */
  function ListedVoices(active: Lists, cs: seq<Category>): set<AudioSource>
  {
    if cs == [] then {}
    else
      var c := cs[|cs| - 1];
      ListedVoices(active, cs[..|cs| - 1]) + (if c in active then set v | v in active[c] else {})
  }

  lemma ListedVoicesStep(active: Lists, cs: seq<Category>, k: int, v: AudioSource)
    requires 0 <= k < |cs|
    ensures v in ListedVoices(active, cs[..k + 1]) <==>
              v in ListedVoices(active, cs[..k]) || (cs[k] in active && v in active[cs[k]])
  {
    assert cs[..k + 1][..k] == cs[..k];
  }

  /** A voice is among the listed voices of `cs` exactly when one of those categories
      lists it. */
  lemma {:induction false} ListedVoicesIn(active: Lists, cs: seq<Category>, v: AudioSource)
    ensures v in ListedVoices(active, cs) <==> exists c :: c in cs && c in active && v in active[c]
  {
    if cs != [] {
      var n := |cs| - 1;
      ListedVoicesIn(active, cs[..n], v);
      if exists c :: c in cs && c in active && v in active[c] {
        var c :| c in cs && c in active && v in active[c];
        if c != cs[n] {
          assert c in cs[..n];
        }
      }
    }
  }

  /** Over every category, the listed voices are those of every list. */
  lemma ListedVoicesAll(active: Lists, v: AudioSource)
    ensures v in ListedVoices(active, AllCategories) <==> exists c :: c in active && v in active[c]
  {
    ListedVoicesIn(active, AllCategories, v);
    if exists c :: c in active && v in active[c] {
      var c :| c in active && v in active[c];
      AllCategoriesComplete(c);
    }
  }

  /** Stops every live voice of every list, visiting the lists in declaration order.
      Each voice is stopped on its own, so the order does not matter; the lists
      themselves are the caller's to clear. */
  method StopListed(active: Lists)
    modifies ListedVoices(active, AllCategories)
    ensures forall c, v :: c in active && v in active[c] ==>
              && v.state == (if old(v.valid) then Stopped else old(v.state))
              && v.valid == old(v.valid) && v.volume == old(v.volume) && v.GetSetup() == old(v.GetSetup())
  {
    var categories := AllCategories;
    ghost var all := ListedVoices(active, categories);
    for k := 0 to |categories|
      invariant forall c, v :: c in active && v in active[c] ==>
                  && v.state == (if v in ListedVoices(active, categories[..k]) && old(v.valid) then Stopped
                                 else old(v.state))
                  && v.valid == old(v.valid) && v.volume == old(v.volume) && v.GetSetup() == old(v.GetSetup())
    {
      var category := categories[k];
      forall c, v | c in active && v in active[c]
        ensures v in ListedVoices(active, categories[..k + 1]) <==>
                  v in ListedVoices(active, categories[..k]) || (category in active && v in active[category])
      {
        ListedVoicesStep(active, categories, k, v);
      }
      if category in active {
        var list := active[category];
        forall v | v in list ensures v in all {
          ListedVoicesIn(active, categories, v);
          assert category in categories;
        }
        ApplyToEach(list, StopVoice);
      }
    }
    assert categories[..|categories|] == categories;
    forall c, v | c in active && v in active[c] ensures v in ListedVoices(active, categories) {
      AllCategoriesComplete(c);
      ListedVoicesIn(active, categories, v);
    }
  }
}
