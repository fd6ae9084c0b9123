/**
  * The section sheets. `AddSectionView` (over `AddSectionViewModel`) inserts a new
  * section; `EditSectionView` rewrites one. Both pick an icon from suggestions, a
  * searchable picker or a typed SF Symbol name, and a colour that must convert to hex.
  * A colour is modelled by what `toHex()` makes of it: `Some(hex)` or `None`.
  */
module SectionEditors {
  import opened Common
  import opened Text
  import opened Models
  import opened Lists

  /** The icon a new or edited section starts with when it has none. */
  const DefaultIcon: string := "star"

  /** `effectiveIconName`: the typed name, trimmed, when there is one; else the picked icon. */
  function EffectiveIconName(customIconName: string, selectedIcon: string): (r: string)
    ensures AllWhitespace(customIconName) ==> r == selectedIcon
    ensures !AllWhitespace(customIconName) ==> r == Trim(customIconName) && IsTrimmed(r)
    ensures r == [] <==> AllWhitespace(customIconName) && selectedIcon == []
  {
    var trimmed := Trim(customIconName);
    if trimmed == [] then selectedIcon else trimmed
  }

  /** `canSave`: a name that is not blank, some icon, and a colour with a hex form. */
  function CanSaveSection(name: string, customIconName: string, selectedIcon: string, hex: Option<string>): (ok: bool)
    ensures ok <==> !AllWhitespace(name) && !(AllWhitespace(customIconName) && selectedIcon == []) && hex.Some?
  {
    Trim(name) != [] && EffectiveIconName(customIconName, selectedIcon) != [] && hex.Some?
  }

  /** `IconPickerSheet.filteredIcons`: everything for a blank query, else the icons containing the trimmed query, ignoring case. */
  function FilteredIcons(allIcons: seq<string>, searchText: string): (r: seq<string>)
    ensures AllWhitespace(searchText) ==> r == allIcons
    ensures forall icon :: icon in r <==> icon in allIcons && (AllWhitespace(searchText) || ContainsIgnoringCase(icon, Trim(searchText)))
    ensures IsSubsequence(r, allIcons)
    ensures forall icon :: icon in r ==> multiset(r)[icon] == multiset(allIcons)[icon]
  {
    var trimmed := Trim(searchText);
    if trimmed == [] then
      assert IsSubsequence(allIcons, allIcons) by {
        FilterAll(allIcons, (icon: string) => true);
        FilterIsSubsequence(allIcons, (icon: string) => true);
      }
      allIcons
    else
      FilterIsSubsequence(allIcons, (icon: string) => ContainsIgnoringCase(icon, trimmed));
      FilterKeepsEveryCopy(allIcons, (icon: string) => ContainsIgnoringCase(icon, trimmed));
      Filter(allIcons, (icon: string) => ContainsIgnoringCase(icon, trimmed))
  }

  /** Filtering what a filter already kept keeps all of it. */
  lemma {:induction false} FilterIdempotent<T>(xs: seq<T>, p: T -> bool)
    ensures Filter(Filter(xs, p), p) == Filter(xs, p)
  {
    if xs != [] {
      FilterIdempotent(xs[1..], p);
      if p(xs[0]) {
        assert ([xs[0]] + Filter(xs[1..], p))[1..] == Filter(xs[1..], p);
      }
    }
  }

  /** Searching the search results again with the same query changes nothing. */
  lemma FilteredIconsIdempotent(allIcons: seq<string>, searchText: string)
    ensures FilteredIcons(FilteredIcons(allIcons, searchText), searchText) == FilteredIcons(allIcons, searchText)
  {
    if Trim(searchText) != [] {
      FilterIdempotent(allIcons, (icon: string) => ContainsIgnoringCase(icon, Trim(searchText)));
    }
  }

  /** A sequence contains itself as a contiguous run. */
  lemma InfixOfItself(s: string)
    ensures IsInfix(s, s)
  {
  }

  /** Typing an icon's exact name (surrounding blanks allowed) keeps that icon in the grid. */
  lemma SearchingANameFindsIt(allIcons: seq<string>, icon: string)
    requires icon in allIcons && icon != [] && IsTrimmed(icon)
    ensures icon in FilteredIcons(allIcons, icon)
    ensures icon in FilteredIcons(allIcons, " " + icon + "\n")
  {
    TrimClean(icon);
    InfixOfItself(Lower(icon));
    var padded := " " + icon + "\n";
    assert LeadingWhitespace(padded) == 1 by {
      assert IsWhitespace(padded[0]) && !IsWhitespace(padded[1]);
    }
    assert padded[1..] == icon + "\n";
    assert Trim(padded) == icon by {
      var t := padded[1..];
      assert TrailingWhitespace(t) == 1 by {
        assert IsWhitespace(t[|t| - 1]) && !IsWhitespace(t[|t| - 2]);
      }
      assert t[..|t| - 1] == icon;
    }
  }

  /** `EditSectionView`. */
  class EditSectionView {
    /** The section being edited; `save()` writes its name, icon and colour. */
    var section: SectionItem
    var name: string
    var selectedIcon: string
    var customIconName: string
    /** `selectedColor.toHex()`. */
    var selectedHex: Option<string>
    var dismissed: bool

    /**
      * `init(section:)`: the section's name and icon, "star" for a section without one;
      * `initialHex` is the hex form of the colour parsed from the section (blue when unparseable).
      */
    constructor (section: SectionItem, initialHex: Option<string>)
      ensures this.section == section && name == section.name && customIconName == [] && selectedHex == initialHex
      ensures section.iconName == [] ==> selectedIcon == DefaultIcon
      ensures section.iconName != [] ==> selectedIcon == section.iconName
      ensures EffectiveIconName(customIconName, selectedIcon) != [] && !dismissed
    {
      this.section := section;
      name := section.name;
      selectedIcon := if section.iconName == [] then DefaultIcon else section.iconName;
      customIconName := [];
      selectedHex := initialHex;
      dismissed := false;
    }

    /** A suggested icon, or one picked in the searchable sheet: it wins over any typed name. */
    method PickIcon(icon: string)
      modifies this
      ensures selectedIcon == icon && customIconName == [] && EffectiveIconName(customIconName, selectedIcon) == icon
      ensures section == old(section) && name == old(name) && selectedHex == old(selectedHex) && dismissed == old(dismissed)
    {
      selectedIcon := icon;
      customIconName := [];
    }

    /** A colour picked from the suggestions or the colour picker. */
    method PickColor(hex: Option<string>)
      modifies this
      ensures selectedHex == hex
      ensures section == old(section) && name == old(name) && selectedIcon == old(selectedIcon) && customIconName == old(customIconName)
      ensures dismissed == old(dismissed)
    {
      selectedHex := hex;
    }

    /**
      * "Save" (disabled unless `canSave`): without a hex colour nothing changes; otherwise the
      * section gets the trimmed name, the effective icon and the hex, and the sheet dismisses.
      */
    method Save()
      modifies this
      ensures !CanSaveSection(name, customIconName, selectedIcon, selectedHex) ==> section == old(section) && dismissed == old(dismissed)
      ensures CanSaveSection(name, customIconName, selectedIcon, selectedHex) ==>
        && section == old(section).(name := Trim(name), iconName := EffectiveIconName(customIconName, selectedIcon),
                                    colorHex := selectedHex.value)
        && section.name != [] && IsTrimmed(section.name) && section.iconName != []
        && dismissed
      ensures section.id == old(section).id && section.cards == old(section).cards
      ensures name == old(name) && selectedIcon == old(selectedIcon) && customIconName == old(customIconName)
    {
      if !CanSaveSection(name, customIconName, selectedIcon, selectedHex) {
        return;
      }
      if selectedHex.None? {
        return;
      }
      section := section.(name := Trim(name), iconName := EffectiveIconName(customIconName, selectedIcon), colorHex := selectedHex.value);
      dismissed := true;
    }
  }

  /** `AddSectionViewModel`: the form's published fields. */
  class AddSectionModel {
    var name: string
    var selectedIcon: string
    var customIconName: string
    /** `selectedColor.toHex()`. */
    var selectedHex: Option<string>

    /** A fresh form: no name, the "star" icon, and the default colour whose hex form is `initialHex`. */
    constructor (initialHex: Option<string>)
      ensures name == [] && selectedIcon == DefaultIcon && customIconName == [] && selectedHex == initialHex
      ensures EffectiveIconName(customIconName, selectedIcon) == DefaultIcon
    {
      name := [];
      selectedIcon := DefaultIcon;
      customIconName := [];
      selectedHex := initialHex;
    }

    function EffectiveIcon(): string
      reads this
    {
      EffectiveIconName(customIconName, selectedIcon)
    }

    function CanSave(): bool
      reads this
    {
      CanSaveSection(name, customIconName, selectedIcon, selectedHex)
    }
  }

  /** `AddSectionView`. */
  class AddSectionView {
    const vm: AddSectionModel
    /** The sections in the store; `save()` inserts into it. */
    var sections: seq<SectionItem>
    var dismissed: bool

    constructor (sections: seq<SectionItem>, initialHex: Option<string>)
      ensures fresh(vm) && this.sections == sections && !dismissed
      ensures vm.name == [] && vm.selectedIcon == DefaultIcon && vm.customIconName == [] && vm.selectedHex == initialHex
    {
      vm := new AddSectionModel(initialHex);
      this.sections := sections;
      dismissed := false;
    }

    /** A suggested icon, or one picked in the searchable sheet: it wins over any typed name. */
    method PickIcon(icon: string)
      modifies vm
      ensures vm.selectedIcon == icon && vm.customIconName == [] && vm.EffectiveIcon() == icon
      ensures vm.name == old(vm.name) && vm.selectedHex == old(vm.selectedHex)
    {
      vm.selectedIcon := icon;
      vm.customIconName := [];
    }

    /**
      * "Save" (disabled unless `canSave`): without a hex colour nothing happens; otherwise exactly
      * one section, with the trimmed name, the hex and the effective icon, is inserted, and the
      * sheet dismisses. `newId` and `now` identify and date it.
      */
    method Save(newId: Id, now: int)
      modifies this
      ensures !vm.CanSave() ==> sections == old(sections) && dismissed == old(dismissed)
      ensures vm.CanSave() ==>
        && sections == old(sections) + [NewSection(newId, Trim(vm.name), vm.selectedHex.value, vm.EffectiveIcon(), now)]
        && dismissed
      ensures vm.CanSave() ==> Trim(vm.name) != [] && vm.EffectiveIcon() != []
    {
      if !vm.CanSave() {
        return;
      }
      if vm.selectedHex.None? {
        return;
      }
      var item := NewSection(newId, Trim(vm.name), vm.selectedHex.value, vm.EffectiveIcon(), now);
      sections := sections + [item];
      dismissed := true;
    }
  }
}
