/** components/form-builder/form-themes.tsx: the eight colour themes, the
    lookup that falls back to the first ("default") one, and the style
    record the pages read from it. */
module FormThemes {
  import opened Common

  /** `headerImage: null` in every entry is `None`. */
  datatype Theme = Theme(
    id: string,
    name: string,
    primaryColor: string,
    accentColor: string,
    headerImage: Option<string>)

  datatype ThemeStyles = ThemeStyles(
    primaryColor: string,
    accentColor: string,
    headerImage: Option<string>)

  const FormThemesTable: seq<Theme> := [
    Theme("default", "Default", "#7c3aed", "#e0e7ff", None),
    Theme("blue", "Ocean", "#2563eb", "#dbeafe", None),
    Theme("green", "Forest", "#059669", "#d1fae5", None),
    Theme("red", "Ruby", "#dc2626", "#fee2e2", None),
    Theme("orange", "Sunset", "#ea580c", "#ffedd5", None),
    Theme("pink", "Blossom", "#db2777", "#fce7f3", None),
    Theme("gray", "Minimal", "#4b5563", "#f3f4f6", None),
    Theme("dark", "Night", "#1f2937", "#374151", None)
  ]

  function ThemeIds(ts: seq<Theme>): (ids: seq<string>)
    ensures |ids| == |ts|
    ensures forall i :: 0 <= i < |ts| ==> ids[i] == ts[i].id
  {
    seq(|ts|, i requires 0 <= i < |ts| => ts[i].id)
  }

  /** `getThemeById(id)`: the theme with that id, else the "default" theme. */
  function GetThemeById(id: string): (t: Theme)
    ensures t in FormThemesTable
    ensures id in ThemeIds(FormThemesTable) ==> t.id == id
    ensures id !in ThemeIds(FormThemesTable) ==> t == FormThemesTable[0] && t.id == "default"
  {
    var k := IndexOf(ThemeIds(FormThemesTable), id);
    if k < 0 then FormThemesTable[0] else FormThemesTable[k]
  }

  /** `getThemeStyles(themeId)`: the looked-up theme's two colours and its
      header image, which is `null` for every theme. */
  function GetThemeStyles(themeId: string): (s: ThemeStyles)
    ensures var t := GetThemeById(themeId);
            s.primaryColor == t.primaryColor && s.accentColor == t.accentColor && s.headerImage == t.headerImage
    ensures s.headerImage == None
  {
    var theme := GetThemeById(themeId);
    ThemeStyles(theme.primaryColor, theme.accentColor, theme.headerImage)
  }

  /** The eight theme ids are pairwise different. */
  lemma ThemeIdsDistinct()
    ensures |FormThemesTable| == 8
    ensures Distinct(ThemeIds(FormThemesTable))
  {
    assert ThemeIds(FormThemesTable) == ["default", "blue", "green", "red", "orange", "pink", "gray", "dark"];
  }
}
