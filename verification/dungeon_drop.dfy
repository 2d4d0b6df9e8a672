/** A possible drop of a dungeon, shown in the preview and drop-editing GUIs:
    a material and a display name, both fixed at construction. */
module DungeonDrops {
  import opened Text
  import opened Host

  /** The class has no `equals`, so two drops are the same only when they are
      the same object; lists of drops are therefore lists of references. */
  class DungeonDrop {
    const material: Material
    const displayName: string

    /** `DungeonDrop(Material, String)` */
    constructor (material: Material, displayName: string)
      ensures this.material == material && this.displayName == displayName
    {
      this.material := material;
      this.displayName := displayName;
    }

    /** `DungeonDrop(ItemStack)`: the item's display name when it has one,
        otherwise the readable form of the material name. */
    constructor FromItem(item: ItemStack)
      ensures material == item.material
      ensures displayName == NameForItem(item)
      ensures item.HasDisplayName() ==> displayName == item.name.value
    {
      material := item.material;
      displayName := NameForItem(item);
    }

    /** `toItemStack()`: an item of the drop's material whose display name is
        the drop's name with every `&` replaced by the two-character literal
        "ยง" that the source writes (not the section sign "§"). Air has no
        meta, so its item keeps no name. */
    function ToItemStack(): (r: ItemStack)
      ensures r.material == material && r.amount == 1 && r.lore == []
      ensures r.HasMeta() ==> r.name == Some(ReplaceChar(displayName, '&', MisencodedSection))
      ensures !r.HasMeta() ==> r.name == None
      ensures r.HasMeta() ==> '&' !in r.name.value
    {
      if material == AIR then Plain(material)
      else Named(material, ReplaceChar(displayName, '&', MisencodedSection))
    }
  }

  /** The replacement text written in `toItemStack`: the UTF-8 bytes of "§"
      read back as TIS-620, two Thai characters. */
  const MisencodedSection: string := "ยง"

  /** The display name `DungeonDrop(ItemStack)` gives a drop. */
  function NameForItem(item: ItemStack): string {
    if item.HasDisplayName() then item.name.value else FormatMaterialName(item.material)
  }

  /** A word with its first character upper-cased. */
  function Capitalize(w: string): (r: string)
    ensures |r| == |w|
    ensures w != [] ==> r[0] == UpperChar(w[0]) && r[1..] == w[1..]
    ensures '_' !in w ==> '_' !in r
  {
    if w == [] then [] else [UpperChar(w[0])] + w[1..]
  }

  /** The StringBuilder loop of `formatMaterialName`: each non-empty word,
      capitalised and followed by one space. */
  function AppendWords(words: seq<string>): (r: string)
    ensures (forall w :: w in words ==> '_' !in w) ==> '_' !in r
  {
    if words == [] then []
    else
      var rest := AppendWords(words[1..]);
      assert forall w :: w in words[1..] ==> w in words;
      (if words[0] == [] then [] else Capitalize(words[0]) + " ") + rest
  }

  /** `formatMaterialName`: lower-case, split on `_`, skip empty words,
      capitalise each word, join with spaces, trim. */
  function FormatMaterialName(materialName: string): (r: string)
    ensures '_' !in r
    ensures r == [] || (r[0] != ' ' && r[|r| - 1] != ' ')
  {
    var words := SplitOn(ToLower(materialName), '_');
    var joined := AppendWords(words);
    Trim(joined)
  }

  /** A word of a material's enum name: non-empty, no `_`, and nothing that
      `trim` would remove. */
  predicate IsNameWord(w: string) {
    w != [] && forall k :: 0 <= k < |w| ==> w[k] != '_' && !IsTrimmed(w[k])
  }

  /** Each word with its first character upper-cased. */
  function CapitalizeAll(ws: seq<string>): (r: seq<string>)
    ensures |r| == |ws| && forall i :: 0 <= i < |ws| ==> r[i] == Capitalize(ws[i])
  {
    seq(|ws|, i requires 0 <= i < |ws| => Capitalize(ws[i]))
  }

  lemma LowerNameWords(ws: seq<string>)
    requires forall i :: 0 <= i < |ws| ==> IsNameWord(ws[i])
    ensures forall i :: 0 <= i < |ws| ==> IsNameWord(ToLowerAll(ws)[i])
  {
    forall i | 0 <= i < |ws| ensures IsNameWord(ToLowerAll(ws)[i]) {
      var w := ws[i];
      assert IsNameWord(w);
      assert ToLowerAll(ws)[i] == ToLower(w);
    }
  }

  /** The readable name of a material whose enum name is the words `ws`
      joined by `_`: every word lower-cased with its first letter capitalised,
      the words separated by single spaces ("IRON_INGOT" reads "Iron Ingot"). */
  function ReadableName(ws: seq<string>): string
    requires ws != [] && forall i :: 0 <= i < |ws| ==> IsNameWord(ws[i])
  {
    LowerNameWords(ws);
    JoinWith(CapitalizeAll(ToLowerAll(ws)), ' ')
  }

  lemma {:induction false} AppendWordsJoin(vs: seq<string>)
    requires vs != [] && forall i :: 0 <= i < |vs| ==> vs[i] != []
    ensures AppendWords(vs) == JoinWith(CapitalizeAll(vs), ' ') + " "
  {
    if |vs| == 1 {
      assert vs[1..] == [];
    } else {
      AppendWordsJoin(vs[1..]);
      AppendWordsStep(vs);
    }
  }

  /** One more leading word adds its capitalised form and a space in front
      on both sides. */
  lemma AppendWordsStep(vs: seq<string>)
    requires |vs| > 1 && vs[0] != []
    requires AppendWords(vs[1..]) == JoinWith(CapitalizeAll(vs[1..]), ' ') + " "
    ensures AppendWords(vs) == JoinWith(CapitalizeAll(vs), ' ') + " "
  {
    var cs := CapitalizeAll(vs);
    AppendWordsCons(vs);
    CapitalizeAllCons(vs);
    JoinWithCons(cs, ' ');
    var tail := JoinWith(cs[1..], ' ');
    assert (cs[0] + " ") + (tail + " ") == ((cs[0] + " ") + tail) + " ";
  }

  lemma AppendWordsCons(vs: seq<string>)
    requires vs != [] && vs[0] != []
    ensures AppendWords(vs) == (Capitalize(vs[0]) + " ") + AppendWords(vs[1..])
  {
  }

  lemma CapitalizeAllCons(vs: seq<string>)
    requires vs != []
    ensures CapitalizeAll(vs)[0] == Capitalize(vs[0]) && CapitalizeAll(vs)[1..] == CapitalizeAll(vs[1..])
  {
  }

  lemma TrimOneSpace(x: string)
    requires x != [] && !IsTrimmed(x[0]) && !IsTrimmed(x[|x| - 1])
    ensures Trim(x + " ") == x
  {
    var s := x + " ";
    assert TrimStart(s) == s;
    assert s[..|s| - 1] == x;
    assert TrimEnd(s) == TrimEnd(x) == x;
  }

  lemma SplitLowerJoin(ws: seq<string>)
    requires ws != [] && forall i :: 0 <= i < |ws| ==> IsNameWord(ws[i])
    ensures SplitOn(ToLower(JoinWith(ws, '_')), '_') == ToLowerAll(ws)
  {
    var vs := ToLowerAll(ws);
    LowerNameWords(ws);
    NoUnderscoreIn(vs);
    SplitJoin(vs, '_');
    ToLowerJoin(ws, '_');
  }

  lemma NoUnderscoreIn(vs: seq<string>)
    requires forall i :: 0 <= i < |vs| ==> IsNameWord(vs[i])
    ensures forall w :: w in vs ==> '_' !in w
  {
    forall w | w in vs ensures '_' !in w {
      var i :| 0 <= i < |vs| && vs[i] == w;
      assert IsNameWord(vs[i]);
    }
  }

  lemma CapitalizedEnds(vs: seq<string>)
    requires vs != [] && forall i :: 0 <= i < |vs| ==> IsNameWord(vs[i])
    ensures forall i :: 0 <= i < |vs| ==> vs[i] != []
    ensures var x := JoinWith(CapitalizeAll(vs), ' ');
      x != [] && !IsTrimmed(x[0]) && !IsTrimmed(x[|x| - 1])
  {
    var caps := CapitalizeAll(vs);
    var first, last := vs[0], vs[|vs| - 1];
    assert IsNameWord(first) && IsNameWord(last);
    assert caps[0][0] == UpperChar(first[0]);
    var c := caps[|caps| - 1];
    assert c == Capitalize(last);
    if |last| == 1 {
      assert c[|c| - 1] == UpperChar(last[0]);
    } else {
      assert c[|c| - 1] == c[1..][|c| - 2] == last[|last| - 1];
    }
    var x := JoinWith(caps, ' ');
    assert x[0] == caps[0][0] && x[|x| - 1] == c[|c| - 1];
  }

  lemma TrimJoined(vs: seq<string>)
    requires vs != [] && forall i :: 0 <= i < |vs| ==> IsNameWord(vs[i])
    ensures Trim(JoinWith(CapitalizeAll(vs), ' ') + " ") == JoinWith(CapitalizeAll(vs), ' ')
  {
    CapitalizedEnds(vs);
    TrimOneSpace(JoinWith(CapitalizeAll(vs), ' '));
  }

  /** `formatMaterialName` turns an enum name into its readable name. */
  lemma FormatMaterialNameReadable(ws: seq<string>)
    requires ws != [] && forall i :: 0 <= i < |ws| ==> IsNameWord(ws[i])
    ensures FormatMaterialName(JoinWith(ws, '_')) == ReadableName(ws)
  {
    var vs := ToLowerAll(ws);
    LowerNameWords(ws);
    SplitLowerJoin(ws);
    CapitalizedEnds(vs);
    AppendWordsJoin(vs);
    TrimJoined(vs);
  }
}
