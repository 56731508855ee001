/** The colour themes of app/theme.py: a fixed table, the current key, and
    the stylesheet built from the current theme. */
module Theme {
  import opened Text

  datatype Theme = Theme(
    name: string, bg: string, bgAlt: string, panel: string,
    text: string, textSub: string, accent: string)

  /** The six themes, by key. */
  function ThemeTable(): map<string, Theme> {
    map[
      "dark_default" := Theme("Dark \U{B7} \U{6DF1}\U{7070}\U{9ED1}",
        "#1E1E1E", "#252525", "#2C2C2C", "#E4E4E4", "#A0A0A0", "#4DA8DA"),
      "dark_reading" := Theme("Dark \U{B7} \U{95B1}\U{8B80}\U{6A21}\U{5F0F}",
        "#1C1B1F", "#2A292D", "#2A292D", "#E8E6E3", "#B8B4AE", "#D6A75B"),
      "dark_tech" := Theme("Dark \U{B7} \U{79D1}\U{6280}\U{85CD}\U{7DA0}",
        "#0F1419", "#1C2530", "#162026", "#E5E9F0", "#88C0D0", "#81A1C1"),
      "light_default" := Theme("Light \U{B7} \U{9727}\U{767D}\U{85CD}",
        "#F5F5F7", "#E8E8EA", "#FFFFFF", "#2E2E2E", "#6A6A6A", "#4D89FF"),
      "light_warm" := Theme("Light \U{B7} \U{5976}\U{6CB9}\U{6696}",
        "#FAF9F7", "#F1EEE7", "#FFFFFF", "#2B2B2B", "#7A7A7A", "#E89F4F"),
      "light_cool" := Theme("Light \U{B7} \U{51B7}\U{8272}\U{6E05}\U{723D}",
        "#F4F7FA", "#E9EEF2", "#FFFFFF", "#27343F", "#76828B", "#4AB3F4")]
  }

  const DefaultThemeKey: string := "dark_default"

  /** The table has exactly the six keys the settings dialog offers, the
      default among them. */
  lemma ThemeTableKeys()
    ensures ThemeTable().Keys ==
      {"dark_default", "dark_reading", "dark_tech", "light_default", "light_warm", "light_cool"}
    ensures |ThemeTable()| == 6
    ensures DefaultThemeKey in ThemeTable()
  {
    var keys := {"dark_default", "dark_reading", "dark_tech", "light_default", "light_warm", "light_cool"};
    assert ThemeTable().Keys == keys;
    assert |keys| == 6;
  }

  // ---- the stylesheet ----

  /** The colour slots of the stylesheet template. */
  datatype Field = Bg | BgAlt | Panel | TextColour | TextSub | Accent

  function FieldValue(t: Theme, f: Field): string {
    match f
    case Bg => t.bg
    case BgAlt => t.bgAlt
    case Panel => t.panel
    case TextColour => t.text
    case TextSub => t.textSub
    case Accent => t.accent
  }

  /** A piece of the stylesheet template: literal text or a colour slot. */
  datatype Piece = Lit(s: string) | Slot(f: Field)

  function PieceText(p: Piece, t: Theme): string {
    match p
    case Lit(s) => s
    case Slot(f) => FieldValue(t, f)
  }

  /** The template filled in with the colours of `t`. */
  function Render(pieces: seq<Piece>, t: Theme): string {
    if pieces == [] then "" else PieceText(pieces[0], t) + Render(pieces[1..], t)
  }

  /** Every slot of the template shows up, filled in, in the rendered text. */
  lemma {:induction false} RenderContainsSlot(pieces: seq<Piece>, t: Theme, f: Field)
    requires Slot(f) in pieces
    ensures Contains(Render(pieces, t), FieldValue(t, f))
  {
    var head := PieceText(pieces[0], t);
    var rest := Render(pieces[1..], t);
    if pieces[0] == Slot(f) {
      ContainsItself(head);
      ContainsInContext("", head, rest, head);
      assert "" + head + rest == Render(pieces, t);
    } else {
      assert Slot(f) in pieces[1..];
      RenderContainsSlot(pieces[1..], t, f);
      ContainsInContext(head, rest, "", FieldValue(t, f));
      assert head + rest + "" == Render(pieces, t);
    }
  }

  const I8: string := "        "
  const I12: string := "            "

  /** The f-string of `build_stylesheet`, split at its placeholders. */
  function StylesheetTemplate(): seq<Piece> {
    [ Lit("\n" + I8 + "QWidget {\n" + I12 + "background-color: "), Slot(Bg),
      Lit(";\n" + I12 + "color: "), Slot(TextColour),
      Lit(";\n" + I12 + "font-size: 18px;\n" + I8 + "}\n"
        + I8 + "QTabWidget::pane {\n" + I12 + "border: 1px solid "), Slot(BgAlt),
      Lit(";\n" + I8 + "}\n"
        + I8 + "QTabBar::tab {\n" + I12 + "background: "), Slot(BgAlt),
      Lit(";\n" + I12 + "padding: 6px 14px;\n" + I8 + "}\n"
        + I8 + "QTabBar::tab:selected {\n" + I12 + "background: "), Slot(Panel),
      Lit(";\n" + I8 + "}\n"
        + I8 + "QListWidget {\n" + I12 + "background: "), Slot(Panel),
      Lit(";\n" + I12 + "border: 1px solid "), Slot(BgAlt),
      Lit(";\n" + I8 + "}\n"
        + I8 + "QTextEdit, QLineEdit {\n" + I12 + "background: "), Slot(Panel),
      Lit(";\n" + I12 + "border: 1px solid "), Slot(BgAlt),
      Lit(";\n" + I8 + "}\n"
        + I8 + "QPushButton {\n" + I12 + "background-color: "), Slot(Accent),
      Lit(";\n" + I12 + "border: none;\n" + I12 + "padding: 6px 12px;\n"
        + I12 + "color: #ffffff;\n" + I8 + "}\n"
        + I8 + "QPushButton:hover {\n" + I12 + "background-color: "), Slot(Accent),
      Lit(";\n" + I12 + "opacity: 0.9;\n" + I8 + "}\n"
        + I8 + "QMenuBar {\n" + I12 + "background-color: "), Slot(BgAlt),
      Lit(";\n" + I12 + "color: "), Slot(TextColour),
      Lit(";\n" + I8 + "}\n"
        + I8 + "QMenuBar::item {\n" + I12 + "background: transparent;\n"
        + I12 + "padding: 4px 10px;\n" + I8 + "}\n"
        + I8 + "QMenuBar::item:selected {\n" + I12 + "background: "), Slot(Panel),
      Lit(";\n" + I8 + "}\n"
        + I8 + "QStatusBar {\n" + I12 + "background: "), Slot(BgAlt),
      Lit(";\n" + I12 + "color: "), Slot(TextSub),
      Lit(";\n" + I8 + "}\n" + I8) ]
  }

  /** The template has a slot for each of the six colours. */
  lemma TemplateSlots()
    ensures Slot(Bg) in StylesheetTemplate() && Slot(BgAlt) in StylesheetTemplate()
    ensures Slot(Panel) in StylesheetTemplate() && Slot(TextColour) in StylesheetTemplate()
    ensures Slot(TextSub) in StylesheetTemplate() && Slot(Accent) in StylesheetTemplate()
  {
    var tpl := StylesheetTemplate();
    assert tpl[1] == Slot(Bg) && tpl[3] == Slot(TextColour) && tpl[5] == Slot(BgAlt);
    assert tpl[9] == Slot(Panel) && tpl[19] == Slot(Accent) && tpl[31] == Slot(TextSub);
  }

  class ThemeManager {
    const themes: map<string, Theme>
    var currentThemeKey: string

    /** The current key always names a theme of the table, and the table is
        the fixed one. */
    ghost predicate Valid()
      reads this
    {
      themes == ThemeTable() && currentThemeKey in themes
    }

    constructor ()
      ensures Valid()
      ensures currentThemeKey == DefaultThemeKey
    {
      themes := ThemeTable();
      currentThemeKey := DefaultThemeKey;
    }

    /** `set_theme`: a known key becomes current, an unknown one is ignored. */
    method SetTheme(key: string)
      requires Valid()
      modifies this
      ensures Valid()
      ensures key in themes ==> currentThemeKey == key
      ensures key !in themes ==> currentThemeKey == old(currentThemeKey)
    {
      if key in themes {
        currentThemeKey := key;
      }
    }

    /** `current`: the theme the current key names; the lookup cannot fail. */
    function Current(): (t: Theme)
      reads this
      requires Valid()
      ensures t in ThemeTable().Values
      ensures ThemeTable()[currentThemeKey] == t
    {
      themes[currentThemeKey]
    }

    /** `build_stylesheet`: the template filled in with the current theme; the
        result shows each of its six colours. */
    function BuildStylesheet(): (css: string)
      reads this
      requires Valid()
      ensures css == Render(StylesheetTemplate(), Current())
      ensures Contains(css, Current().bg) && Contains(css, Current().bgAlt)
      ensures Contains(css, Current().panel) && Contains(css, Current().text)
      ensures Contains(css, Current().textSub) && Contains(css, Current().accent)
    {
      var tpl := StylesheetTemplate();
      var t := Current();
      TemplateSlots();
      RenderContainsSlot(tpl, t, Bg);
      RenderContainsSlot(tpl, t, BgAlt);
      RenderContainsSlot(tpl, t, Panel);
      RenderContainsSlot(tpl, t, TextColour);
      RenderContainsSlot(tpl, t, TextSub);
      RenderContainsSlot(tpl, t, Accent);
      Render(tpl, t)
    }
  }
}
