/** The category list of the sidebar: which categories it shows, the icon and
    label it derives from each category name, and what a click does. */
module Sidebar {
  import opened Wrappers
  import opened Strings
  import opened Entities
  import opened Seqs

  /** The code points of the pattern `[\u{1F300}-\u{1F9FF}]` with the `u` flag. */
  predicate IsEmoji(c: char) {
    '\U{1F300}' <= c <= '\U{1F9FF}'
  }

  predicate NoEmoji(s: string) {
    forall i :: 0 <= i < |s| ==> !IsEmoji(s[i])
  }

  /** `name[i]` is the first emoji of the name. */
  predicate FirstEmojiAt(name: string, i: int) {
    0 <= i < |name| && IsEmoji(name[i]) && NoEmoji(name[..i])
  }

  /** The icon shown when a name has no emoji. */
  const FolderIcon: string := "📁"

  /** The first character of the name in the emoji block, or the folder icon
      when the name has none. */
  function Icon(name: string): (r: string)
    ensures NoEmoji(name) ==> r == FolderIcon
    ensures !NoEmoji(name) ==> exists i :: FirstEmojiAt(name, i) && r == [name[i]]
  {
    if name == [] then FolderIcon
    else if IsEmoji(name[0]) then
      assert name[..0] == [];
      [name[0]]
    else
      var r := Icon(name[1..]);
      assert forall i :: 1 <= i < |name| ==> name[1..][i - 1] == name[i];
      assert forall i :: 1 <= i <= |name| ==> name[..i] == [name[0]] + name[1..][..i - 1];
      r
  }

  /** The name with every character of the emoji block removed, the other
      characters kept in order. */
  function Strip(name: string): (r: string)
    ensures NoEmoji(r)
    ensures |r| <= |name|
  {
    if name == [] then []
    else if IsEmoji(name[0]) then Strip(name[1..])
    else [name[0]] + Strip(name[1..])
  }

  /** Stripping keeps exactly the characters that are not emoji. */
  lemma {:induction false} StripMembers(name: string)
    ensures forall c :: c in Strip(name) <==> c in name && !IsEmoji(c)
  {
    if name != [] {
      StripMembers(name[1..]);
      assert name == [name[0]] + name[1..];
    }
  }

  /** A name without emoji is its own stripping. */
  lemma {:induction false} StripNoEmoji(name: string)
    requires NoEmoji(name)
    ensures Strip(name) == name
  {
    if name != [] {
      StripNoEmoji(name[1..]);
    }
  }

  lemma {:induction false} StripAppend(a: string, b: string)
    ensures Strip(a + b) == Strip(a) + Strip(b)
  {
    if a == [] {
      assert a + b == b;
    } else {
      assert (a + b)[1..] == a[1..] + b;
      StripAppend(a[1..], b);
    }
  }

  /** The label: the stripped name trimmed, or the whole name when nothing
      is left. */
  function Label(name: string): string {
    var stripped := Trim(Strip(name));
    if stripped == "" then name else stripped
  }

  /** The label is empty exactly when the name is, and it is either the name
      itself or a piece of it free of emoji and of surrounding whitespace. */
  lemma LabelShape(name: string)
    ensures Label(name) == [] <==> name == []
    ensures Label(name) == name || (NoEmoji(Label(name)) && Trim(Label(name)) == Label(name) &&
      Label(name) != [])
  {
    var stripped := Strip(name);
    var t := Trim(stripped);
    if t == "" {
      assert Label(name) == name;
    } else {
      TrimIdempotent(stripped);
      TrimNoEmoji(stripped);
      assert Label(name) == t;
    }
  }

  /** Trimming takes a piece of its input, so it keeps it free of emoji. */
  lemma TrimNoEmoji(s: string)
    requires NoEmoji(s)
    ensures NoEmoji(Trim(s))
  {
    TrimSlice(s);
    var t := Trim(s);
    if t != [] {
      var i :| OccursAt(s, t, i);
      assert forall k :: 0 <= k < |t| ==> t[k] == s[i + k];
    }
  }

  /** A name that starts with an emoji followed by emoji-free text shows that
      emoji as its icon and the trimmed text as its label. */
  lemma EmojiThenText(e: char, text: string)
    requires IsEmoji(e) && NoEmoji(text) && Trim(text) != ""
    ensures Icon([e] + text) == [e]
    ensures Label([e] + text) == Trim(text)
  {
    StripAppend([e], text);
    StripNoEmoji(text);
    assert Strip([e]) == [];
  }

  /** The entries that hold a category, in order, with the absent ones dropped. */
  function NonEmptyCategories(categories: seq<Option<Category>>): (r: seq<Category>)
    ensures |r| <= |categories|
  {
    if categories == [] then []
    else match categories[0]
      case Some(c) => [c] + NonEmptyCategories(categories[1..])
      case None => NonEmptyCategories(categories[1..])
  }

  /** The filter keeps every present category and drops only the absent
      entries; each category appears as often as it was present, and the
      kept ones stay in list order. */
  lemma NonEmptyCategoriesMembers(categories: seq<Option<Category>>)
    ensures forall c :: c in NonEmptyCategories(categories) <==> Some(c) in categories
    ensures (forall k :: 0 <= k < |categories| ==> categories[k].Some?) ==>
      |NonEmptyCategories(categories)| == |categories|
    ensures forall c :: multiset(NonEmptyCategories(categories))[c] == multiset(categories)[Some(c)]
    ensures IsSubsequence(AsPresent(NonEmptyCategories(categories)), categories)
  {
    NonEmptyCategoriesKept(categories);
    forall c
      ensures multiset(NonEmptyCategories(categories))[c] == multiset(categories)[Some(c)]
    {
      NonEmptyCategoriesCount(categories, c);
    }
    var idx := NonEmptyCategoriesEmbedding(categories);
  }

  /** The categories as the entries of a list in which each is present. */
  function AsPresent(cs: seq<Category>): (r: seq<Option<Category>>)
    ensures |r| == |cs|
    ensures forall k :: 0 <= k < |cs| ==> r[k] == Some(cs[k])
  {
    seq(|cs|, k requires 0 <= k < |cs| => Some(cs[k]))
  }

  lemma {:induction false} NonEmptyCategoriesKept(categories: seq<Option<Category>>)
    ensures forall c :: c in NonEmptyCategories(categories) <==> Some(c) in categories
    ensures (forall k :: 0 <= k < |categories| ==> categories[k].Some?) ==>
      |NonEmptyCategories(categories)| == |categories|
  {
    if categories != [] {
      NonEmptyCategoriesKept(categories[1..]);
      assert categories == [categories[0]] + categories[1..];
      if forall k :: 0 <= k < |categories| ==> categories[k].Some? {
        assert forall k :: 0 <= k < |categories[1..]| ==> categories[1..][k] == categories[k + 1];
      }
    }
  }

  lemma {:induction false} NonEmptyCategoriesCount(categories: seq<Option<Category>>, c: Category)
    ensures multiset(NonEmptyCategories(categories))[c] == multiset(categories)[Some(c)]
  {
    if categories != [] {
      var rest := NonEmptyCategories(categories[1..]);
      NonEmptyCategoriesCount(categories[1..], c);
      HeadCount(categories, Some(c));
      if categories[0].Some? {
        HeadCount([categories[0].value] + rest, c);
        assert ([categories[0].value] + rest)[1..] == rest;
      }
    }
  }

  lemma {:induction false} NonEmptyCategoriesEmbedding(categories: seq<Option<Category>>) returns (idx: seq<int>)
    ensures Embedding(idx, AsPresent(NonEmptyCategories(categories)), categories)
  {
    if categories == [] {
      idx := [];
    } else {
      var t := NonEmptyCategoriesEmbedding(categories[1..]);
      var tail := AsPresent(NonEmptyCategories(categories[1..]));
      var shifted := ShiftEmbedding(t, tail, categories);
      if categories[0].Some? {
        idx := [0] + shifted;
        var r := AsPresent(NonEmptyCategories(categories));
        assert r == [categories[0]] + tail;
        forall k | 0 <= k < |idx|
          ensures 0 <= idx[k] < |categories| && categories[idx[k]] == r[k]
        {
          if k > 0 {
            assert idx[k] == shifted[k - 1] && r[k] == tail[k - 1];
          }
        }
      } else {
        idx := shifted;
      }
    }
  }

  /** The calls `handleCategoryClick` makes on its callbacks. */
  datatype Call = SelectCategory(id: Option<string>) | Close

  /** `handleCategoryClick(id)`: selects the category, then closes the
      drawer on a mobile screen only. */
  function CategoryClick(id: Option<string>, mobile: bool): (r: seq<Call>)
    ensures |r| > 0 && r[0] == SelectCategory(id)
    ensures Close in r <==> mobile
    ensures forall k :: 0 < k < |r| ==> r[k] == Close
  {
    [SelectCategory(id)] + (if mobile then [Close] else [])
  }
}
