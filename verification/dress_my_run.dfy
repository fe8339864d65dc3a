/**
 The dashboard's "Dress Your Run" card (src/components/dashboard/DressMyRun.tsx): the table from
 clothing category to icon, the two ways the component looks a category up in it, and what the
 card shows for each shape the suggestion can take.
 */
module DressMyRun {
  import opened Text

  datatype DressIcon = UserCircle | Sun | Glasses | Shirt | Wind | CloudRain | Footprints | Hand
                     | CheckSquare | HelpCircle

  /** `categoryIcons`, in four groups of six in source order; keys are lower-case and hyphenated. */
  const HeadAndTopIcons: map<string, DressIcon> := map[
    "hat" := UserCircle, "visor" := Sun, "sunglasses" := Glasses, "headband" := UserCircle,
    "shirt" := Shirt, "tank-top" := Shirt]
  const LayerIcons: map<string, DressIcon> := map[
    "long-sleeve" := Shirt, "base-layer" := Shirt, "mid-layer" := Shirt, "jacket" := Wind,
    "vest" := Shirt, "windbreaker" := Wind]
  const LegIcons: map<string, DressIcon> := map[
    "rain-jacket" := CloudRain, "shorts" := Footprints, "capris" := Footprints,
    "tights" := Footprints, "pants" := Footprints, "gloves" := Hand]
  const ExtremityIcons: map<string, DressIcon> := map[
    "mittens" := Hand, "socks" := Footprints, "shoes" := Footprints, "gaiter" := UserCircle,
    "balaclava" := UserCircle, "accessory" := CheckSquare]
  const CategoryIcons: map<string, DressIcon> := HeadAndTopIcons + LayerIcons + LegIcons + ExtremityIcons

  /** The categories the dashboard generator is told it may use, in the order it lists them
      (src/ai/flows/generate-dashboard-content.ts). */
  const PromptCategories: seq<string> := [
    "hat", "visor", "sunglasses", "headband", "shirt", "tank-top", "long-sleeve", "base-layer",
    "mid-layer", "jacket", "vest", "windbreaker", "rain-jacket", "shorts", "capris", "tights",
    "pants", "gloves", "mittens", "socks", "shoes", "gaiter", "balaclava", "accessory"]

  /** The characters a table key is written with. */
  predicate KeyShaped(k: string) {
    |k| > 0 && k[0] != '-' && k[|k| - 1] != '-'
    && forall i :: 0 <= i < |k| ==> ('a' <= k[i] <= 'z' || k[i] == '-')
  }

  /** The table has an icon for exactly the permitted categories. */
  lemma TableMatchesPrompt(k: string)
    ensures k in CategoryIcons <==> k in PromptCategories
  {
    if k in HeadAndTopIcons {
      HeadAndTopPermitted(k);
    } else if k in LayerIcons {
      LayersPermitted(k);
    } else if k in LegIcons {
      LegsPermitted(k);
    } else if k in ExtremityIcons {
      ExtremitiesPermitted(k);
    } else if k in PromptCategories {
      PromptInTable(k);
    }
  }

  lemma HeadAndTopPermitted(k: string)
    requires k in HeadAndTopIcons
    ensures k in PromptCategories
  {
    assert PromptCategories[..6] == ["hat", "visor", "sunglasses", "headband", "shirt", "tank-top"];
  }

  lemma LayersPermitted(k: string)
    requires k in LayerIcons
    ensures k in PromptCategories
  {
    assert PromptCategories[6..12] == ["long-sleeve", "base-layer", "mid-layer", "jacket", "vest", "windbreaker"];
  }

  lemma LegsPermitted(k: string)
    requires k in LegIcons
    ensures k in PromptCategories
  {
    assert PromptCategories[12..18] == ["rain-jacket", "shorts", "capris", "tights", "pants", "gloves"];
  }

  lemma ExtremitiesPermitted(k: string)
    requires k in ExtremityIcons
    ensures k in PromptCategories
  {
    assert PromptCategories[18..] == ["mittens", "socks", "shoes", "gaiter", "balaclava", "accessory"];
  }

  lemma PromptInTable(k: string)
    requires k in PromptCategories
    ensures k in CategoryIcons
  {
  }

  /** The generator is told each category once. */
  lemma PromptListsEachOnce()
    ensures forall i, j :: 0 <= i < j < |PromptCategories| ==> PromptCategories[i] != PromptCategories[j]
  {
  }

  /** Every table key is lower-case letters joined by hyphens. */
  lemma KeysAreShaped(k: string)
    requires k in CategoryIcons
    ensures KeyShaped(k)
  {
    if k in HeadAndTopIcons {
      HeadAndTopShaped(k);
    } else if k in LayerIcons {
      LayersShaped(k);
    } else if k in LegIcons {
      LegsShaped(k);
    } else {
      ExtremitiesShaped(k);
    }
  }

  lemma HeadAndTopShaped(k: string) requires k in HeadAndTopIcons ensures KeyShaped(k) { }
  lemma LayersShaped(k: string) requires k in LayerIcons ensures KeyShaped(k) { }
  lemma LegsShaped(k: string) requires k in LegIcons ensures KeyShaped(k) { }
  lemma ExtremitiesShaped(k: string) requires k in ExtremityIcons ensures KeyShaped(k) { }

  /** A key-shaped string is its own normal form: lower-casing and trimming leave it alone. */
  lemma KeyIsNormal(k: string)
    requires KeyShaped(k)
    ensures ToLower(k) == k && Trim(k) == k
  {
    LowerKeepsKey(k);
    TrimKeepsKey(k);
  }

  lemma LowerKeepsKey(k: string)
    requires KeyShaped(k)
    ensures ToLower(k) == k
  {
    var l := ToLower(k);
    forall i | 0 <= i < |k|
      ensures l[i] == k[i]
    {
      assert 'a' <= k[i] <= 'z' || k[i] == '-';
    }
  }

  lemma TrimKeepsKey(k: string)
    requires KeyShaped(k)
    ensures Trim(k) == k
  {
    var first, last := k[0], k[|k| - 1];
    assert 'a' <= first <= 'z' || first == '-';
    assert 'a' <= last <= 'z' || last == '-';
    assert !IsSpace(first) && !IsSpace(last);
    assert TrimStart(k) == k;
    assert TrimEnd(k) == k;
  }

  /** `getIconForCategory`, as written: lower-case, trim, turn the first "-" into " ", then look
      the result up, with the question-mark icon when it is not a key. The card's list does not
      call it; it looks categories up directly (see `ListIcon`). */
  function IconForCategoryAsWritten(category: string): (r: DressIcon)
    ensures r == HelpCircle || r in CategoryIcons.Values
    ensures var key := ReplaceFirst(Trim(ToLower(category)), '-', ' ');
      && (key in CategoryIcons ==> r == CategoryIcons[key])
      && (key !in CategoryIcons ==> r == HelpCircle)
  {
    var key := ReplaceFirst(Trim(ToLower(category)), '-', ' ');
    if key in CategoryIcons then CategoryIcons[key] else HelpCircle
  }

  /** No key has a space, so any category that still holds a hyphen after trimming and
      lower-casing misses the table, the hyphenated keys themselves included. */
  lemma {:induction false} HyphenatedCategoriesMiss(category: string)
    requires '-' in Trim(ToLower(category))
    ensures IconForCategoryAsWritten(category) == HelpCircle
  {
    var key := ReplaceFirst(Trim(ToLower(category)), '-', ' ');
    assert ' ' in key;
    if key in CategoryIcons {
      KeysAreShaped(key);
      assert false;
    }
  }

  /** Every hyphenated key of the table misses it under the lookup as written. */
  lemma HyphenatedKeysMiss(k: string)
    requires k in CategoryIcons && '-' in k
    ensures IconForCategoryAsWritten(k) == HelpCircle
  {
    KeysAreShaped(k);
    KeyIsNormal(k);
    HyphenatedCategoriesMiss(k);
  }

  /** "tank-top" is a table key, yet the lookup as written gives the question mark for it. */
  lemma TankTopMissesAsWritten()
    ensures "tank-top" in CategoryIcons && CategoryIcons["tank-top"] == Shirt
    ensures IconForCategoryAsWritten("tank-top") == HelpCircle
  {
    var k := "tank-top";
    assert k in HeadAndTopIcons && k !in LayerIcons && k !in LegIcons && k !in ExtremityIcons;
    assert k[4] == '-';
    HyphenatedKeysMiss(k);
  }

  /** The lookup without the hyphen rewrite: lower-case, trim, look up. */
  function IconForCategory(category: string): (r: DressIcon)
    ensures r == HelpCircle || r in CategoryIcons.Values
    ensures Trim(ToLower(category)) in CategoryIcons ==> r == CategoryIcons[Trim(ToLower(category))]
    ensures Trim(ToLower(category)) !in CategoryIcons ==> r == HelpCircle
  {
    var key := Trim(ToLower(category));
    if key in CategoryIcons then CategoryIcons[key] else HelpCircle
  }

  /** Every category of the table finds its own icon, whatever the case and the whitespace
      around it. */
  lemma KeysFindTheirIcon(k: string, before: string, after: string)
    requires k in CategoryIcons
    requires AllSpace(before) && AllSpace(after)
    ensures IconForCategory(before + ToUpper(k) + after) == CategoryIcons[k]
    ensures IconForCategory(k) == CategoryIcons[k]
  {
    KeysAreShaped(k);
    KeyIsNormal(k);
    NormalizesToKey(k, before, after);
  }

  /** Lower-casing and trimming an upper-cased key padded with whitespace gives back the key. */
  lemma NormalizesToKey(k: string, before: string, after: string)
    requires KeyShaped(k)
    requires AllSpace(before) && AllSpace(after)
    ensures Trim(ToLower(before + ToUpper(k) + after)) == k
  {
    LowerOfUpperKey(before, k, after);
    LowerKeepsSpaces(before);
    LowerKeepsSpaces(after);
    TrimPadded(ToLower(before), k, ToLower(after));
  }

  lemma LowerOfUpperKey(before: string, k: string, after: string)
    requires KeyShaped(k)
    ensures ToLower(before + ToUpper(k) + after) == ToLower(before) + k + ToLower(after)
  {
    var s := before + ToUpper(k) + after;
    var l := ToLower(s);
    var m := ToLower(before) + k + ToLower(after);
    assert |l| == |m|;
    forall i | 0 <= i < |l|
      ensures l[i] == m[i]
    {
      if i < |before| {
        assert s[i] == before[i];
      } else if i < |before| + |k| {
        var j := i - |before|;
        assert s[i] == Upper(k[j]);
        assert 'a' <= k[j] <= 'z' || k[j] == '-';
      } else {
        assert s[i] == after[i - |before| - |k|];
      }
    }
  }

  /** Lower-casing turns whitespace into whitespace. */
  lemma LowerKeepsSpaces(s: string)
    requires AllSpace(s)
    ensures AllSpace(ToLower(s))
  {
    assert forall i :: 0 <= i < |s| ==> ToLower(s)[i] == s[i];
  }

  /** Trimming a word padded with whitespace gives the word. */
  lemma {:induction false} TrimPadded(before: string, w: string, after: string)
    requires AllSpace(before) && AllSpace(after)
    requires |w| > 0 && !IsSpace(w[0]) && !IsSpace(w[|w| - 1])
    ensures Trim(before + w + after) == w
  {
    TrimStartPadded(before, w + after);
    assert before + w + after == before + (w + after);
    TrimEndPadded(w, after);
    assert TrimStart(w) == w;
  }

  lemma {:induction false} TrimStartPadded(before: string, t: string)
    requires AllSpace(before)
    requires |t| > 0 && !IsSpace(t[0])
    ensures TrimStart(before + t) == t
    decreases |before|
  {
    if |before| > 0 {
      assert (before + t)[1..] == before[1..] + t;
      TrimStartPadded(before[1..], t);
    } else {
      assert before + t == t;
    }
  }

  lemma {:induction false} TrimEndPadded(t: string, after: string)
    requires AllSpace(after)
    requires |t| > 0 && !IsSpace(t[|t| - 1])
    ensures TrimEnd(t + after) == t
    decreases |after|
  {
    if |after| > 0 {
      assert (t + after)[..|t + after| - 1] == t + after[..|after| - 1];
      TrimEndPadded(t, after[..|after| - 1]);
    } else {
      assert t + after == t;
    }
  }

  /** The two lookups differ only on hyphenated categories. */
  lemma AsWrittenAgreesWithoutHyphens(category: string)
    requires '-' !in Trim(ToLower(category))
    ensures IconForCategoryAsWritten(category) == IconForCategory(category)
  {
  }

  /** The icon a list entry gets: the lower-cased category, neither trimmed nor rewritten,
      looked up with the shirt as the fallback. */
  function ListIcon(category: string): (r: DressIcon)
    ensures ToLower(category) in CategoryIcons ==> r == CategoryIcons[ToLower(category)]
    ensures ToLower(category) !in CategoryIcons ==> r == Shirt
  {
    var key := ToLower(category);
    if key in CategoryIcons then CategoryIcons[key] else Shirt
  }

  /** For a category without surrounding whitespace the list agrees with the corrected lookup,
      except that a miss shows the shirt rather than the question mark. */
  lemma ListAgreesWithLookup(category: string)
    requires Trim(category) == category
    ensures ToLower(category) in CategoryIcons ==> ListIcon(category) == IconForCategory(category)
    ensures ToLower(category) !in CategoryIcons ==>
              ListIcon(category) == Shirt && IconForCategory(category) == HelpCircle
  {
    TrimLower(category);
  }

  /** Lower-casing and trimming commute: lower-casing never makes or removes whitespace. */
  lemma TrimLower(s: string)
    ensures Trim(ToLower(s)) == ToLower(Trim(s))
  {
    TrimStartLower(s);
    TrimEndLower(TrimStart(s));
  }

  lemma {:induction false} TrimStartLower(s: string)
    ensures TrimStart(ToLower(s)) == ToLower(TrimStart(s))
    decreases |s|
  {
    if |s| > 0 {
      assert ToLower(s)[1..] == ToLower(s[1..]);
      assert IsSpace(ToLower(s)[0]) == IsSpace(s[0]);
      TrimStartLower(s[1..]);
    }
  }

  lemma {:induction false} TrimEndLower(s: string)
    ensures TrimEnd(ToLower(s)) == ToLower(TrimEnd(s))
    decreases |s|
  {
    if |s| > 0 {
      assert ToLower(s)[..|s| - 1] == ToLower(s[..|s| - 1]);
      assert IsSpace(ToLower(s)[|s| - 1]) == IsSpace(s[|s| - 1]);
      TrimEndLower(s[..|s| - 1]);
    }
  }

  // ---------------------------------------------------------------------------
  // renderContent

  datatype DressItem = DressItem(category: string, item: string)

  /** The `suggestion` prop: absent (null or undefined), a raw string, or a list of items. */
  datatype Suggestion = Pending | Raw(text: string) | Items(items: seq<DressItem>)

  datatype Entry = Entry(icon: DressIcon, text: string)

  /** What the card body shows. */
  datatype CardBody =
    | BeingGenerated
    | UnexpectedFormat(raw: string)
    | NoSuggestions
    | EntryList(entries: seq<Entry>)

  /** `renderContent`. */
  function Render(s: Suggestion): (r: CardBody)
    ensures s.Pending? <==> r.BeingGenerated?
    ensures s.Raw? <==> r.UnexpectedFormat?
    ensures s.Raw? ==> r.raw == s.text
    ensures r.NoSuggestions? <==> s == Items([])
    ensures r.EntryList? ==> s.Items? && |r.entries| == |s.items| > 0
    ensures r.EntryList? ==> forall i :: 0 <= i < |s.items| ==>
              r.entries[i] == Entry(ListIcon(s.items[i].category), s.items[i].item)
  {
    match s
    case Pending => BeingGenerated
    case Raw(text) => UnexpectedFormat(text)
    case Items(items) =>
      if |items| == 0 then NoSuggestions
      else EntryList(seq(|items|, i requires 0 <= i < |items| =>
                           Entry(ListIcon(items[i].category), items[i].item)))
  }

  /** A list entry for a permitted category, written in any case, shows that category's icon. */
  lemma PermittedCategoriesShowTheirIcon(items: seq<DressItem>, i: nat, k: string)
    requires i < |items| && k in CategoryIcons
    requires ToLower(items[i].category) == k
    ensures Render(Items(items)).EntryList?
    ensures Render(Items(items)).entries[i].icon == CategoryIcons[k]
  {
  }

  /** The entries follow the items: appending items appends entries. */
  lemma {:induction false} RenderAppends(a: seq<DressItem>, b: seq<DressItem>)
    requires |a| > 0 && |b| > 0
    ensures Render(Items(a + b)).entries == Render(Items(a)).entries + Render(Items(b)).entries
  {
    var ra := Render(Items(a)).entries;
    var rb := Render(Items(b)).entries;
    var r := Render(Items(a + b)).entries;
    assert forall i :: 0 <= i < |a| ==> (a + b)[i] == a[i];
    assert forall i :: |a| <= i < |a| + |b| ==> (a + b)[i] == b[i - |a|];
    assert r == ra + rb;
  }
}
