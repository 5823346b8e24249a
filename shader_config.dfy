/**
  The page-scoped shader configuration of the portfolio's WebGL background:
  two constant tables (the colour palettes and the shader sets built from
  them) and the total function that picks a shader set for a page path.
 */
module ShaderConfig {

  /** The GLSL assets the site bundles. Their text never matters here, only
      which asset a table entry refers to, so each is an opaque token. */
  datatype ShaderSource =
    | VertexThree
    | FragmentAufbau
    | FragmentNiels
    | FragmentRaum
    | FragmentClosedLoop
    | FragmentNew
    | FragmentGarrett
    | FragmentTerminal

  /** A colour as the 24-bit hex literal it is written with (0xRRGGBB). */
  type Rgb24 = c: int | 0 <= c < 0x100_0000

  /** Named colour slots (color1, color2, ...). */
  type Palette = map<string, Rgb24>

  /** Named fragment shaders of one page. */
  type ShaderTable = map<string, ShaderSource>

  /** Harmonic timing: frequency ratios and a base interval in milliseconds. */
  datatype Harmonic = Harmonic(ratios: seq<real>, baseInterval: int)

  /** Everything one page hands to the renderer. */
  datatype ShaderSet = ShaderSet(shaders: ShaderTable, colors: Palette, harmonic: Harmonic)

  /** The vertex shader every page shares. */
  const CommonVertexShader: ShaderSource := VertexThree

  const AboutPalette: Palette := map[
    "color1" := 0xff6b6b,
    "color2" := 0xffd93d,
    "color3" := 0x6bcbef,
    "color4" := 0x32a852,
    "color5" := 0x995d81,
    "color6" := 0xed6663,
    "color7" := 0x4b89dc,
    "color8" := 0xf0a07c
  ]

  const HomePalette: Palette := map[
    "color1" := 0xfafafa,
    "color2" := 0xf0f0f0
  ]

  /** The exported palette table, keyed by page name. */
  const ColorPalettes: map<string, Palette> := map["about" := AboutPalette, "home" := HomePalette]

  const AboutShaders: ShaderTable := map[
    "aufbau" := FragmentAufbau,
    "niels" := FragmentNiels,
    "raum" := FragmentRaum,
    "closed_loop" := FragmentClosedLoop,
    "new" := FragmentNew,
    "garrett" := FragmentGarrett
  ]

  const HomeShaders: ShaderTable := map["terminal" := FragmentTerminal]

  const AboutSet: ShaderSet := ShaderSet(
    AboutShaders,
    ColorPalettes["about"],
    Harmonic([1.0, 2.0, 3.0 / 2.0, 4.0 / 3.0, 5.0 / 3.0, 5.0 / 4.0, 6.0 / 5.0, 8.0 / 5.0, 10.0 / 6.0], 2000))

  const HomeSet: ShaderSet := ShaderSet(
    HomeShaders,
    ColorPalettes["home"],
    Harmonic([1.0, 2.0, 3.0 / 2.0, 4.0 / 3.0], 3000))

  /** The exported shader-set table, keyed by page name. */
  const ShaderSets: map<string, ShaderSet> := map["about" := AboutSet, "home" := HomeSet]

  const AboutShaderNames: set<string> := {"aufbau", "niels", "raum", "closed_loop", "new", "garrett"}
  const AboutSlotNames: set<string> := {"color1", "color2", "color3", "color4", "color5", "color6", "color7", "color8"}
  const HomeSlotNames: set<string> := {"color1", "color2"}

  /** The paths that count as the home page. */
  predicate IsHomePath(pagePath: string) {
    pagePath == "/" || pagePath == ""
  }

  /** A harmonic block fit to drive the animation: the ratio list is
      non-empty, starts at unison, and every ratio is positive. */
  predicate WellFormedHarmonic(h: Harmonic) {
    |h.ratios| > 0 && h.ratios[0] == 1.0 && forall i :: 0 <= i < |h.ratios| ==> h.ratios[i] > 0.0
  }

  /** A shader set with at least one shader, at least one colour slot and a
      well-formed harmonic block. */
  predicate WellFormedSet(s: ShaderSet) {
    |s.shaders| > 0 && |s.colors| > 0 && WellFormedHarmonic(s.harmonic)
  }

  /** The six about shader names are distinct and `terminal` is not among
      them; the about palette has eight distinct slot names, the home
      palette two. */
  lemma NamesDistinct()
    ensures "terminal" !in AboutShaderNames
    ensures |AboutShaderNames| == 6
    ensures |AboutSlotNames| == 8
    ensures |HomeSlotNames| == 2
  {
    assert "color1"[5] == '1' && "color2"[5] == '2';
    assert |{"color1", "color2"}| == 2;
  }

  /** The home bundle: one shader named terminal, the home palette with
      slots color1 and color2, four ratios and a 3000 ms base interval. */
  lemma HomeSetShape()
    ensures ShaderSets["home"].shaders.Keys == {"terminal"}
    ensures |ShaderSets["home"].shaders| == 1
    ensures ShaderSets["home"].colors == ColorPalettes["home"]
    ensures ShaderSets["home"].colors.Keys == HomeSlotNames
    ensures |ShaderSets["home"].colors| == 2
    ensures ShaderSets["home"].colors["color1"] == 0xfafafa
    ensures ShaderSets["home"].colors["color2"] == 0xf0f0f0
    ensures |ShaderSets["home"].harmonic.ratios| == 4
    ensures ShaderSets["home"].harmonic.baseInterval == 3000
  {
    NamesDistinct();
  }

  /** The about bundle: six shaders, the about palette with slots
      color1..color8, nine ratios and a 2000 ms base interval. */
  lemma AboutSetShape()
    ensures ShaderSets["about"].shaders.Keys == AboutShaderNames
    ensures |ShaderSets["about"].shaders| == 6
    ensures ShaderSets["about"].colors == ColorPalettes["about"]
    ensures ShaderSets["about"].colors.Keys == AboutSlotNames
    ensures |ShaderSets["about"].colors| == 8
    ensures |ShaderSets["about"].harmonic.ratios| == 9
    ensures ShaderSets["about"].harmonic.baseInterval == 2000
    ensures ShaderSets["about"].colors["color1"] == 0xff6b6b
    ensures ShaderSets["about"].colors["color2"] == 0xffd93d
    ensures ShaderSets["about"].colors["color3"] == 0x6bcbef
    ensures ShaderSets["about"].colors["color4"] == 0x32a852
    ensures ShaderSets["about"].colors["color5"] == 0x995d81
    ensures ShaderSets["about"].colors["color6"] == 0xed6663
    ensures ShaderSets["about"].colors["color7"] == 0x4b89dc
    ensures ShaderSets["about"].colors["color8"] == 0xf0a07c
  {
    NamesDistinct();
  }

  /** Both exported tables are keyed by exactly `about` and `home`, and the
      shared vertex shader is none of the fragment shaders either page uses. */
  lemma TablesShape()
    ensures ColorPalettes.Keys == {"about", "home"}
    ensures ShaderSets.Keys == {"about", "home"}
    ensures forall k :: k in ShaderSets ==> CommonVertexShader !in ShaderSets[k].shaders.Values
  {
    forall k | k in ShaderSets
      ensures CommonVertexShader !in ShaderSets[k].shaders.Values
    {
      assert k == "about" || k == "home";
    }
  }

  /** Every shader set in the table has a well-formed harmonic block. */
  lemma RegistryWellFormed()
    ensures forall k :: k in ShaderSets ==> WellFormedSet(ShaderSets[k])
  {
    HomeSetShape();
    AboutSetShape();
    assert WellFormedHarmonic(HomeSet.harmonic);
    assert WellFormedHarmonic(AboutSet.harmonic);
    forall k | k in ShaderSets
      ensures WellFormedSet(ShaderSets[k])
    {
      assert k == "about" || k == "home";
    }
  }

  /** The shader set for a page path. Total: every string resolves, and
      exactly the home paths resolve to the one-shader home set. */
  function GetShaderSetForPage(pagePath: string): (s: ShaderSet)
    ensures s in ShaderSets.Values
    ensures WellFormedSet(s)
    ensures IsHomePath(pagePath) <==> s.shaders.Keys == {"terminal"}
    ensures IsHomePath(pagePath) ==> s == ShaderSets["home"] && s.harmonic.baseInterval == 3000
    ensures !IsHomePath(pagePath) ==> s == ShaderSets["about"] && s.shaders.Keys == AboutShaderNames
  {
    RegistryWellFormed();
    HomeSetShape();
    AboutSetShape();
    if pagePath == "/" || pagePath == "" then
      ShaderSets["home"]
    else
      ShaderSets["about"]
  }

  /** The root path and the empty path resolve to the home set; the two
      bundles differ, so the case split is an if-and-only-if. */
  lemma HomeIffHomePath(pagePath: string)
    ensures GetShaderSetForPage(pagePath) == ShaderSets["home"] <==> IsHomePath(pagePath)
    ensures GetShaderSetForPage(pagePath) == ShaderSets["about"] <==> !IsHomePath(pagePath)
  {
    AboutSetShape();
    assert "terminal" !in ShaderSets["about"].shaders;
    assert ShaderSets["home"] != ShaderSets["about"];
  }

  /** Resolution reaches exactly the sets of the table: each one is the
      answer for some path, and no path yields anything else. */
  lemma ResolutionCoversRegistry(s: ShaderSet)
    ensures s in ShaderSets.Values <==> exists p: string :: GetShaderSetForPage(p) == s
  {
    if s in ShaderSets.Values {
      ValuesOfRegistry();
      if s == ShaderSets["home"] {
        assert GetShaderSetForPage("/") == s;
      } else {
        assert GetShaderSetForPage("/about") == s;
      }
    }
  }

  /** The table holds exactly the about and the home set. */
  lemma ValuesOfRegistry()
    ensures forall s :: s in ShaderSets.Values ==> s == ShaderSets["home"] || s == ShaderSets["about"]
  {
    forall s | s in ShaderSets.Values
      ensures s == ShaderSets["home"] || s == ShaderSets["about"]
    {
      var k :| k in ShaderSets && ShaderSets[k] == s;
      assert k == "about" || k == "home";
    }
  }

  /** The answer depends on the path only through whether it is a home
      path: any two non-home paths get the same set, as do any two home
      paths. */
  lemma ResolutionDependsOnlyOnRouteClass(p: string, q: string)
    requires IsHomePath(p) == IsHomePath(q)
    ensures GetShaderSetForPage(p) == GetShaderSetForPage(q)
  {
  }

  /** Both ratio lists start at unison, increase to the octave 2 and stay
      within one octave [1, 2]. */
  lemma RatiosWithinOctave()
    ensures forall k, i :: k in ShaderSets && 0 <= i < |ShaderSets[k].harmonic.ratios| ==>
      1.0 <= ShaderSets[k].harmonic.ratios[i] <= 2.0
    ensures forall k :: k in ShaderSets ==> ShaderSets[k].harmonic.ratios[..2] == [1.0, 2.0]
  {
    assert ShaderSets.Keys == {"about", "home"};
  }

  /** The last about ratio, written 10/6, is the same ratio as 5/3 earlier
      in the list, so the about list holds only eight distinct ratios. */
  lemma AboutRatioRepeats()
    ensures ShaderSets["about"].harmonic.ratios[4] == ShaderSets["about"].harmonic.ratios[8] == 5.0 / 3.0
  {
  }
}
