/**
 * The background panel: a constant table of backgrounds in four categories,
 * the selection, and the blur and dim sliders. Each change hands a
 * background descriptor to the parent when the selected id is found in the
 * selected category.
 */
module BackgroundPanel {
  import opened Common

  datatype Category = Gradients | Landscapes | Abstract | Solid

  /** The `type` of a background descriptor. */
  datatype Kind = Color | Gradient | Image

  /** The descriptor handed to the parent. */
  datatype Background = Background(kind: Kind, value: string, blur: int, dim: int)

  datatype Entry = Entry(id: string, value: string)

  /** The ids `<name>1` to `<name>6` of a numbered category. */
  function Numbered(name: string): (ids: seq<string>)
    ensures |ids| == 6
    ensures forall i :: 0 <= i < 6 ==> ids[i] == name + [('1' as int + i) as char]
  {
    seq(6, i requires 0 <= i < 6 => name + [('1' as int + i) as char])
  }

  /** The ids of each category, in display order. */
  function Ids(c: Category): (ids: seq<string>)
    ensures |ids| == 6
  {
    match c {
      case Gradients => Numbered("gradient")
      case Landscapes => Numbered("landscape")
      case Abstract => Numbered("abstract")
      case Solid => ["black", "dark-gray", "blue", "purple", "green", "red"]
    }
  }

  /** The CSS gradients, in display order. */
  function GradientValue(i: nat): string
    requires i < 6
  {
    if i == 0 then "linear-gradient(to right, #4facfe 0%, #00f2fe 100%)"
    else if i == 1 then "linear-gradient(to right, #f78ca0 0%, #f9748f 19%, #fd868c 60%, #fe9a8b 100%)"
    else if i == 2 then "linear-gradient(to right, #6a11cb 0%, #2575fc 100%)"
    else if i == 3 then "linear-gradient(to right, #243949 0%, #517fa4 100%)"
    else if i == 4 then "linear-gradient(to right, #ff6e7f 0%, #bfe9ff 100%)"
    else "linear-gradient(to right, #0f0c29 0%, #302b63 50%, #24243e 100%)"
  }

  /** The image of a background id: `/assets/backgrounds/<id>.jpg`. */
  function ImagePath(id: string): string {
    "/assets/backgrounds/" + id + ".jpg"
  }

  /** The descriptor values of each category, in the same order as the ids. */
  function Values(c: Category): (vs: seq<string>)
    ensures |vs| == 6
  {
    match c {
      case Gradients => seq(6, i requires 0 <= i < 6 => GradientValue(i))
      case Landscapes => seq(6, i requires 0 <= i < 6 => ImagePath(Numbered("landscape")[i]))
      case Abstract => seq(6, i requires 0 <= i < 6 => ImagePath(Numbered("abstract")[i]))
      case Solid => ["#000000", "#222222", "#0f172a", "#2e1065", "#064e3b", "#450a0a"]
    }
  }

  /** The backgrounds of each category, in display order: six entries each. */
  function Table(c: Category): (t: seq<Entry>)
    ensures |t| == 6
    ensures forall i :: 0 <= i < 6 ==> t[i] == Entry(Ids(c)[i], Values(c)[i])
  {
    seq(6, i requires 0 <= i < 6 => Entry(Ids(c)[i], Values(c)[i]))
  }

  /** `backgrounds[category].find(bg => bg.id === id)`, as the index of the first entry with that id. */
  function FindIndex(entries: seq<Entry>, id: string): (r: Option<nat>)
    ensures r.Some? ==> r.value < |entries| && entries[r.value].id == id
    ensures r.Some? ==> forall j :: 0 <= j < r.value ==> entries[j].id != id
    ensures r.None? <==> forall j :: 0 <= j < |entries| ==> entries[j].id != id
  {
    Find(entries, (x: Entry) => x.id == id)
  }

  /** The descriptor type: gradients and solid colours are CSS colours, the rest images. */
  function KindOf(c: Category): (k: Kind)
    ensures k != Gradient
    ensures k == Color <==> c == Gradients || c == Solid
  {
    if c == Gradients || c == Solid then Color else Image
  }

  /** What a change hands to the parent: the entry's descriptor when the id is in the category's table. */
  function Emitted(c: Category, id: string, blur: int, dim: int): (r: Option<Background>)
    ensures r.Some? <==> exists j :: 0 <= j < |Table(c)| && Table(c)[j].id == id
    ensures r.Some? ==> r.value.kind == KindOf(c) && r.value.blur == blur && r.value.dim == dim
    ensures r.Some? ==> exists j :: 0 <= j < |Table(c)| && Table(c)[j] == Entry(id, r.value.value)
  {
    match FindIndex(Table(c), id) {
      case None => None
      case Some(i) => Some(Background(KindOf(c), Table(c)[i].value, blur, dim))
    }
  }

  /** The length, first and last character of an id: enough to tell every id of the table apart. */
  function Signature(id: string): (int, char, char)
    requires id != []
  {
    (|id|, id[0], id[|id| - 1])
  }

  /** The length, first and last character tell the ids of all categories apart. */
  lemma IdsDistinct(c: Category, d: Category, i: nat, j: nat)
    requires i < 6 && j < 6
    requires |Ids(c)| == 6 && |Ids(d)| == 6
    requires Ids(c)[i] == Ids(d)[j]
    ensures c == d && i == j
  {
    assert Signature(Ids(c)[i]) == Signature(Ids(d)[j]);
  }

  /** No id occurs twice in the whole table. */
  lemma IdsUnique(c: Category, d: Category, i: nat, j: nat)
    requires i < 6 && j < 6
    requires Table(c)[i].id == Table(d)[j].id
    ensures c == d && i == j
  {
    IdsDistinct(c, d, i, j);
  }

  /**
   * Choosing a thumbnail of the shown category always hands its descriptor on;
   * an id of one category is found in no other, so once the tab is switched
   * the sliders hand nothing on until a thumbnail is chosen again.
   */
  lemma SelectionFound(c: Category, d: Category, i: nat, blur: int, dim: int)
    requires i < 6
    ensures Emitted(c, Table(c)[i].id, blur, dim) == Some(Background(KindOf(c), Table(c)[i].value, blur, dim))
    ensures d != c ==> Emitted(d, Table(c)[i].id, blur, dim) == None
  {
    FoundAtOwnIndex(c, i);
    if d != c {
      AbsentElsewhere(c, d, i);
    }
  }

  /** The search for an entry's id stops at that entry. */
  lemma FoundAtOwnIndex(c: Category, i: nat)
    requires i < 6
    ensures FindIndex(Table(c), Table(c)[i].id) == Some(i)
  {
    forall j, k | 0 <= j < k < 6
      ensures Table(c)[j].id != Table(c)[k].id
    {
      if Table(c)[j].id == Table(c)[k].id {
        IdsUnique(c, c, j, k);
      }
    }
    FindDistinct(Table(c), i);
  }

  /** In a list whose ids are pairwise different, the search for an entry's id finds that entry. */
  lemma FindDistinct(entries: seq<Entry>, i: nat)
    requires i < |entries|
    requires forall j, k :: 0 <= j < k < |entries| ==> entries[j].id != entries[k].id
    ensures FindIndex(entries, entries[i].id) == Some(i)
  {
  }

  /** An entry's id is not in the table of any other category. */
  lemma AbsentElsewhere(c: Category, d: Category, i: nat)
    requires i < 6 && d != c
    ensures FindIndex(Table(d), Table(c)[i].id) == None
  {
    var r := FindIndex(Table(d), Table(c)[i].id);
    if r.Some? {
      IdsUnique(d, c, r.value, i);
    }
  }

  /** The panel's state: the shown category, the selected id and the two slider values. */
  class Panel {
    var selectedCategory: Category
    var selectedBackground: string
    var blur: int
    var dim: int

    constructor ()
      ensures selectedCategory == Gradients && selectedBackground == "gradient1" && blur == 0 && dim == 0
    {
      selectedCategory := Gradients;
      selectedBackground := "gradient1";
      blur := 0;
      dim := 0;
    }

    /** A thumbnail click: selects it and hands on its descriptor with the current slider values. */
    method Select(c: Category, id: string) returns (emitted: Option<Background>)
      modifies this`selectedCategory, this`selectedBackground
      ensures selectedCategory == c && selectedBackground == id
      ensures emitted == Emitted(c, id, blur, dim)
    {
      selectedCategory := c;
      selectedBackground := id;
      emitted := Emitted(c, id, blur, dim);
    }

    /** The blur slider: the new blur with the unchanged dim, for the current selection. */
    method BlurChange(newBlur: int) returns (emitted: Option<Background>)
      modifies this`blur
      ensures blur == newBlur
      ensures emitted == Emitted(selectedCategory, selectedBackground, newBlur, dim)
    {
      blur := newBlur;
      emitted := Emitted(selectedCategory, selectedBackground, newBlur, dim);
    }

    /** The dim slider: the new dim with the unchanged blur, for the current selection. */
    method DimChange(newDim: int) returns (emitted: Option<Background>)
      modifies this`dim
      ensures dim == newDim
      ensures emitted == Emitted(selectedCategory, selectedBackground, blur, newDim)
    {
      dim := newDim;
      emitted := Emitted(selectedCategory, selectedBackground, blur, newDim);
    }

    /** A category tab: only the shown category changes; the selected id stays. */
    method SelectCategory(c: Category)
      modifies this`selectedCategory
      ensures selectedCategory == c
    {
      selectedCategory := c;
    }
  }
}
